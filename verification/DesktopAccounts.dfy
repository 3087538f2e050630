/**
 * The desktop shell's saved accounts (apps/app-desktop/src/desktop-accounts.ts): a store of refresh
 * tokens and a directory in order of last use.  Identifier 0 and token 0 are the empty string,
 * which the source treats as absent.
 */
module DesktopAccounts {
  import opened Options

  type Id = nat
  type Token = nat
  const MAX_ACCOUNTS := 8

  datatype DirEntry = DirEntry(id: Id, profile: nat)
  datatype Credential = Credential(account: DirEntry, refreshToken: Token)
  datatype Accounts = Accounts(store: map<Id, Token>, dir: seq<DirEntry>)

  const NONE := Accounts(map[], [])

  function Without(dir: seq<DirEntry>, id: Id): (r: seq<DirEntry>)
    ensures forall e :: e in r <==> e in dir && e.id != id
  {
    if dir == [] then [] else (if dir[0].id == id then [] else [dir[0]]) + Without(dir[1..], id)
  }

  /** `upsertAccountDir`. */
  function Upsert(dir: seq<DirEntry>, entry: DirEntry): seq<DirEntry> {
    Without(dir, entry.id) + [entry]
  }

  /** Write one account's token and put it last in the directory. */
  function Record(a: Accounts, c: Credential): Accounts {
    Accounts(a.store[c.account.id := c.refreshToken], Upsert(a.dir, c.account))
  }

  function RecordAny(a: Accounts, c: Option<Credential>): Accounts {
    if c.Some? then Record(a, c.value) else a
  }

  /** A stored token that is not the empty string. */
  predicate Truthy(store: map<Id, Token>, id: Id) {
    id in store && store[id] != 0
  }

  /** `stashAndAddAccount`; `None` is `atCapacity`. */
  function StashAndAdd(a: Accounts, prev: Option<Credential>, next: Credential): Option<Accounts> {
    var stashed := RecordAny(a, prev);
    if !Truthy(stashed.store, next.account.id) && |stashed.store| >= MAX_ACCOUNTS then None
    else Some(Record(stashed, next))
  }

  /** `applySwitchRotation`. */
  function ApplySwitch(a: Accounts, prevActive: Option<Credential>, switched: Credential): Accounts {
    Record(RecordAny(a, prevActive), switched)
  }

  /** `rotateActiveInStore`; a jar without a store has nothing to sync. */
  function RotateActive(a: Accounts, active: Credential): Option<Accounts> {
    if |a.store| == 0 then None else Some(Record(a, active))
  }

  /** `pruneAccount`. */
  function Prune(a: Accounts, id: Id): Accounts {
    Accounts(a.store - {id}, Without(a.dir, id))
  }

  /** `planActiveLogout` without its candidates. */
  function Logout(a: Accounts, activeId: Option<Id>): Accounts {
    if activeId.Some? && activeId.value != 0 then Prune(a, activeId.value) else a
  }

  /** `.map(e => e.id).reverse().filter(id => Boolean(store[id]))`. */
  function Candidates(a: Accounts): seq<Id>
    decreases |a.dir|
  {
    if a.dir == [] then []
    else
      var last := a.dir[|a.dir| - 1].id;
      (if Truthy(a.store, last) then [last] else []) + Candidates(a.(dir := a.dir[..|a.dir| - 1]))
  }

  // ---------------------------------------------------------------- any run

  datatype Change =
    | Added(prev: Option<Credential>, next: Credential)
    | Switched(prevActive: Option<Credential>, switched: Credential)
    | Rotated(active: Credential)
    | Pruned(id: Id)
    | LoggedOut(activeId: Option<Id>)

  function Apply(a: Accounts, c: Change): Accounts {
    match c
    case Added(prev, next) => var r := StashAndAdd(a, prev, next); if r.Some? then r.value else a
    case Switched(prev, switched) => ApplySwitch(a, prev, switched)
    case Rotated(active) => var r := RotateActive(a, active); if r.Some? then r.value else a
    case Pruned(id) => Prune(a, id)
    case LoggedOut(activeId) => Logout(a, activeId)
  }

  function Run(cs: seq<Change>): Accounts {
    if cs == [] then NONE else Apply(Run(cs[..|cs| - 1]), cs[|cs| - 1])
  }

  function Ids(c: Option<Credential>): set<Id> {
    if c.Some? then {c.value.account.id} else {}
  }

  /** The account has a token: the one stashed for it, or else the stored one.  The empty token is none. */
  predicate HasToken(a: Accounts, prev: Option<Credential>, id: Id) {
    if prev.Some? && prev.value.account.id == id then prev.value.refreshToken != 0 else id in a.store && a.store[id] != 0
  }

  /** Adding is refused: with the stashed session there are eight accounts, and the new one has no token among them. */
  predicate AddRefused(a: Accounts, prev: Option<Credential>, next: Credential) {
    !HasToken(a, prev, next.account.id) && |a.store.Keys + Ids(prev)| >= 8
  }

  /** The accounts a change writes, in order: none when it is refused, or where there is no store to rotate in. */
  function Written(a: Accounts, c: Change): seq<Credential> {
    match c
    case Added(prev, next) => if AddRefused(a, prev, next) then [] else Optional(prev) + [next]
    case Switched(prev, switched) => Optional(prev) + [switched]
    case Rotated(active) => if a.store == map[] then [] else [active]
    case Pruned(_) => []
    case LoggedOut(_) => []
  }

  function Optional(c: Option<Credential>): seq<Credential> {
    if c.Some? then [c.value] else []
  }

  /** The account a change drops. */
  function Dropped(c: Change): set<Id> {
    match c
    case Pruned(id) => {id}
    case LoggedOut(activeId) => if activeId.Some? && activeId.value != 0 then {activeId.value} else {}
    case _ => {}
  }

  // ---------------------------------------------------------------- the history

  /** Every write so far, in order, and the accounts dropped since their last write. */
  datatype Ledger = Ledger(writes: seq<Credential>, live: map<Id, nat>)

  /** `live[id]` is the position of the last write of an account that was not dropped since. */
  function Note(l: Ledger, cs: seq<Credential>): Ledger
    decreases |cs|
  {
    if cs == [] then l
    else Note(Ledger(l.writes + [cs[0]], l.live[cs[0].account.id := |l.writes|]), cs[1..])
  }

  function LedgerOf(cs: seq<Change>): Ledger {
    if cs == [] then Ledger([], map[])
    else
      var before := LedgerOf(cs[..|cs| - 1]);
      var l := Note(before, Written(Run(cs[..|cs| - 1]), cs[|cs| - 1]));
      l.(live := l.live - Dropped(cs[|cs| - 1]))
  }

  ghost predicate LedgerOk(l: Ledger) {
    && (forall id <- l.live :: l.live[id] < |l.writes| && l.writes[l.live[id]].account.id == id)
    && (forall id <- l.live :: forall k | l.live[id] < k < |l.writes| :: l.writes[k].account.id != id)
  }

  /** The store holds the last written token of every live account. */
  ghost predicate StoreMatches(store: map<Id, Token>, l: Ledger) {
    && store.Keys == l.live.Keys
    && (forall id <- store :: l.live[id] < |l.writes| && store[id] == l.writes[l.live[id]].refreshToken)
  }

  /** The directory holds the last written profile of every live account. */
  ghost predicate DirMatches(dir: seq<DirEntry>, l: Ledger) {
    && (forall e <- dir :: e.id in l.live && l.live[e.id] < |l.writes| && e == l.writes[l.live[e.id]].account)
    && (forall id <- l.live :: l.live[id] < |l.writes| && l.writes[l.live[id]].account in dir)
  }

  ghost predicate Earlier(live: map<Id, nat>, a: Id, b: Id) {
    a in live && b in live && live[a] < live[b]
  }

  /** The directory is in the order of the accounts' last writes. */
  ghost predicate DirOrder(dir: seq<DirEntry>, live: map<Id, nat>) {
    forall i, j | 0 <= i < j < |dir| :: Earlier(live, dir[i].id, dir[j].id)
  }

  ghost predicate Matches(a: Accounts, l: Ledger) {
    LedgerOk(l) && StoreMatches(a.store, l) && DirMatches(a.dir, l) && DirOrder(a.dir, l.live)
  }

  lemma {:induction false} WithoutOrder(dir: seq<DirEntry>, id: Id, live: map<Id, nat>)
    requires DirOrder(dir, live)
    ensures DirOrder(Without(dir, id), live)
  {
    if dir != [] {
      hide Earlier;
      forall i, j | 0 <= i < j < |dir[1..]| ensures Earlier(live, dir[1..][i].id, dir[1..][j].id) {
        assert Earlier(live, dir[i + 1].id, dir[j + 1].id);
      }
      WithoutOrder(dir[1..], id, live);
      FirstStays(dir, id, live);
    }
  }

  lemma FirstStays(dir: seq<DirEntry>, id: Id, live: map<Id, nat>)
    requires dir != [] && DirOrder(dir, live)
    ensures forall e <- Without(dir[1..], id) :: Earlier(live, dir[0].id, e.id)
  {
    hide Earlier;
    forall e | e in Without(dir[1..], id) ensures Earlier(live, dir[0].id, e.id) {
      assert e in dir[1..];
      var k :| 0 <= k < |dir[1..]| && dir[1..][k] == e;
      assert Earlier(live, dir[0].id, dir[k + 1].id);
    }
  }

  lemma RecordStore(store: map<Id, Token>, l: Ledger, c: Credential)
    requires StoreMatches(store, l) && LedgerOk(l)
    ensures
      var n := Ledger(l.writes + [c], l.live[c.account.id := |l.writes|]);
      StoreMatches(store[c.account.id := c.refreshToken], n) && LedgerOk(n)
  {
  }

  lemma RecordDir(dir: seq<DirEntry>, l: Ledger, c: Credential)
    requires DirMatches(dir, l) && LedgerOk(l)
    ensures DirMatches(Upsert(dir, c.account), Ledger(l.writes + [c], l.live[c.account.id := |l.writes|]))
  {
    var w := Without(dir, c.account.id);
    var writes, live := l.writes + [c], l.live[c.account.id := |l.writes|];
    forall e | e in w + [c.account] ensures e.id in live && live[e.id] < |writes| && e == writes[live[e.id]].account {
      if e in w { assert e in dir; }
    }
    assert c.account in w + [c.account];
    forall id | id in live ensures live[id] < |writes| && writes[live[id]].account in w + [c.account] {
      if id != c.account.id { assert id in l.live && l.writes[l.live[id]].account in dir; }
    }
  }

  /** The order of the others does not change when one account's last write does. */
  lemma OthersOrder(w: seq<DirEntry>, live: map<Id, nat>, id: Id, n: nat)
    requires DirOrder(w, live) && forall e <- w :: e.id != id
    ensures DirOrder(w, live[id := n])
  {
    hide Earlier;
    forall i, j | 0 <= i < j < |w| ensures Earlier(live[id := n], w[i].id, w[j].id) {
      assert w[i] in w && w[j] in w;
      StillEarlier(live, w[i].id, w[j].id, id, n);
    }
  }

  lemma StillEarlier(live: map<Id, nat>, a: Id, b: Id, id: Id, n: nat)
    requires Earlier(live, a, b) && a != id && b != id
    ensures Earlier(live[id := n], a, b)
  {
  }

  lemma LastInOrder(w: seq<DirEntry>, last: DirEntry, live: map<Id, nat>)
    requires DirOrder(w, live) && forall e <- w :: Earlier(live, e.id, last.id)
    ensures DirOrder(w + [last], live)
  {
    hide Earlier;
    var u := w + [last];
    forall i, j | 0 <= i < j < |u| ensures Earlier(live, u[i].id, u[j].id) {
      assert u[i] in w;
    }
  }

  lemma RecordOrder(dir: seq<DirEntry>, l: Ledger, c: Credential)
    requires DirOrder(dir, l.live) && DirMatches(dir, l)
    ensures DirOrder(Upsert(dir, c.account), l.live[c.account.id := |l.writes|])
  {
    var id := c.account.id;
    var w := Without(dir, id);
    var live := l.live[id := |l.writes|];
    forall e | e in w ensures e.id != id && Earlier(live, e.id, id) {
      assert e in dir;
    }
    hide Without, DirOrder, DirMatches, Earlier;
    WithoutOrder(dir, id, l.live);
    OthersOrder(w, l.live, id, |l.writes|);
    LastInOrder(w, c.account, live);
  }

  lemma RecordMatches(a: Accounts, l: Ledger, c: Credential)
    requires Matches(a, l)
    ensures Matches(Record(a, c), Ledger(l.writes + [c], l.live[c.account.id := |l.writes|]))
  {
    RecordStore(a.store, l, c);
    RecordDir(a.dir, l, c);
    RecordOrder(a.dir, l, c);
    hide LedgerOk, StoreMatches, DirMatches, DirOrder, Upsert;
  }

  lemma {:induction false} NoteMatches(a: Accounts, l: Ledger, cs: seq<Credential>)
    requires Matches(a, l)
    ensures Matches(RecordAll(a, cs), Note(l, cs))
    decreases |cs|
  {
    hide Matches, Record;
    if cs != [] {
      RecordMatches(a, l, cs[0]);
      NoteMatches(Record(a, cs[0]), Ledger(l.writes + [cs[0]], l.live[cs[0].account.id := |l.writes|]), cs[1..]);
    }
  }

  function RecordAll(a: Accounts, cs: seq<Credential>): Accounts
    decreases |cs|
  {
    if cs == [] then a else RecordAll(Record(a, cs[0]), cs[1..])
  }

  lemma PruneOrder(dir: seq<DirEntry>, live: map<Id, nat>, id: Id)
    requires DirOrder(dir, live)
    ensures DirOrder(Without(dir, id), live - {id})
  {
    var w := Without(dir, id);
    WithoutOrder(dir, id, live);
    forall i, j | 0 <= i < j < |w| ensures Earlier(live - {id}, w[i].id, w[j].id) {
      assert Earlier(live, w[i].id, w[j].id) && w[i] in w && w[j] in w;
    }
  }

  lemma PruneLedger(l: Ledger, id: Id)
    requires LedgerOk(l)
    ensures LedgerOk(l.(live := l.live - {id}))
  {
    var n := l.(live := l.live - {id});
    forall i | i in n.live
      ensures n.live[i] < |n.writes| && n.writes[n.live[i]].account.id == i
              && forall k | n.live[i] < k < |n.writes| :: n.writes[k].account.id != i
    {
      assert i in l.live;
    }
  }

  lemma PruneStore(store: map<Id, Token>, l: Ledger, id: Id)
    requires StoreMatches(store, l)
    ensures StoreMatches(store - {id}, l.(live := l.live - {id}))
  {
    var live := l.live - {id};
    assert (store - {id}).Keys == live.Keys;
    forall i | i in store - {id} ensures live[i] < |l.writes| && (store - {id})[i] == l.writes[live[i]].refreshToken {
      assert i in store;
    }
  }

  lemma PruneDir(dir: seq<DirEntry>, l: Ledger, id: Id)
    requires LedgerOk(l) && DirMatches(dir, l)
    ensures DirMatches(Without(dir, id), l.(live := l.live - {id}))
  {
    var live, w := l.live - {id}, Without(dir, id);
    forall e | e in w ensures e.id in live && live[e.id] < |l.writes| && e == l.writes[live[e.id]].account {
      assert e in dir;
    }
    forall i | i in live ensures live[i] < |l.writes| && l.writes[live[i]].account in w {
      assert i in l.live && l.writes[l.live[i]].account in dir;
    }
  }

  lemma PruneMatches(a: Accounts, l: Ledger, id: Id)
    requires Matches(a, l)
    ensures Matches(Prune(a, id), l.(live := l.live - {id}))
  {
    PruneOrder(a.dir, l.live, id);
    PruneLedger(l, id);
    PruneStore(a.store, l, id);
    PruneDir(a.dir, l, id);
    hide LedgerOk, StoreMatches, DirMatches, DirOrder, Without;
  }

  /** A change writes its accounts in order and then drops what it drops. */
  lemma ApplyIsWrites(a: Accounts, c: Change)
    ensures Dropped(c) == {} ==> Apply(a, c) == RecordAll(a, Written(a, c))
    ensures Dropped(c) != {} ==>
      (c.Pruned? || (c.LoggedOut? && c.activeId.Some?)) && Apply(a, c) == Prune(a, if c.Pruned? then c.id else c.activeId.value)
  {
    hide Record, Prune, AddRefused, StashAndAdd;
    match c {
      case Added(prev, next) =>
        AddIsRefusedExactlyWhen(a, prev, next);
        AddRecords(a, prev, next);
        Two(a, prev, next);
      case Switched(prev, switched) => Two(a, prev, switched);
      case Rotated(active) => Two(a, None, active); EmptyStore(a.store);
      case Pruned(id) => assert id in Dropped(c);
      case LoggedOut(activeId) => if activeId.Some? && activeId.value != 0 { assert activeId.value in Dropped(c); }
    }
  }

  /** `atCapacity`, from the store. */
  lemma AddIsRefusedExactlyWhen(a: Accounts, prev: Option<Credential>, next: Credential)
    ensures StashAndAdd(a, prev, next).None? <==> AddRefused(a, prev, next)
  {
    hide Without;
    var stashed := RecordAny(a, prev).store;
    assert stashed.Keys == a.store.Keys + Ids(prev);
    assert |stashed| == |stashed.Keys|;
  }

  /** A rotation is refused exactly while nothing is stored. */
  lemma RotationIsRefusedExactlyWhen(a: Accounts, active: Credential)
    ensures RotateActive(a, active).None? <==> forall id: Id :: id !in a.store
  {
    EmptyStore(a.store);
    if a.store != map[] {
      var id :| id in a.store;
    }
  }

  lemma AddRecords(a: Accounts, prev: Option<Credential>, next: Credential)
    ensures StashAndAdd(a, prev, next).Some? ==> StashAndAdd(a, prev, next).value == Record(RecordAny(a, prev), next)
  {
    hide Record;
  }

  /** A rotation is dropped exactly where nothing is stored. */
  lemma EmptyStore(store: map<Id, Token>)
    ensures |store| == 0 <==> store == map[]
  {
    if |store| == 0 { assert store.Keys == {}; }
  }

  lemma Two(a: Accounts, prev: Option<Credential>, next: Credential)
    ensures RecordAll(a, Optional(prev) + [next]) == Record(RecordAny(a, prev), next)
  {
    hide Record;
    assert RecordAll(RecordAny(a, prev), [next]) == Record(RecordAny(a, prev), next) by {
      assert [next][1..] == [];
    }
    if prev.Some? {
      assert ([prev.value] + [next])[1..] == [next];
    } else {
      assert [] + [next] == [next];
    }
  }

  /**
   * After any run the store holds exactly the accounts written and not dropped since, each with the
   * token of its last write; the directory lists exactly these accounts, each once, with the last
   * written profile, in the order of their last writes.
   */
  lemma {:induction false} HistoryIsKept(cs: seq<Change>)
    ensures Matches(Run(cs), LedgerOf(cs))
  {
    if cs == [] {
      NothingMatches();
    } else {
      hide Matches, Apply, Note, Written, Dropped;
      var before, c := cs[..|cs| - 1], cs[|cs| - 1];
      HistoryIsKept(before);
      ChangeMatches(Run(before), LedgerOf(before), c);
    }
  }

  lemma NothingMatches()
    ensures Matches(NONE, Ledger([], map[]))
  {
  }

  lemma ChangeMatches(a: Accounts, l: Ledger, c: Change)
    requires Matches(a, l)
    ensures var n := Note(l, Written(a, c)); Matches(Apply(a, c), n.(live := n.live - Dropped(c)))
  {
    hide Matches, Apply, Note, Written, RecordAll, Dropped, Prune;
    ApplyIsWrites(a, c);
    if Dropped(c) == {} {
      NoteMatches(a, l, Written(a, c));
      NothingDropped(Note(l, Written(a, c)));
    } else {
      OnlyDropped(a, l, c);
      PruneMatches(a, l, if c.Pruned? then c.id else c.activeId.value);
    }
  }

  lemma NothingDropped(l: Ledger)
    ensures l.(live := l.live - {}) == l
  {
    assert l.live - {} == l.live;
  }

  /** A change that drops an account drops that one and writes nothing. */
  lemma OnlyDropped(a: Accounts, l: Ledger, c: Change)
    requires Dropped(c) != {}
    ensures (c.Pruned? || (c.LoggedOut? && c.activeId.Some?)) && Note(l, Written(a, c)) == l
    ensures Dropped(c) == {if c.Pruned? then c.id else c.activeId.value}
  {
  }

  /** Directory ids are distinct and are exactly the stored ids. */
  lemma DirectoryIsTheStore(cs: seq<Change>)
    ensures
      var a := Run(cs);
      && (forall i, j | 0 <= i < |a.dir| && 0 <= j < |a.dir| :: a.dir[i].id == a.dir[j].id ==> i == j)
      && (forall id: Id :: id in a.store <==> exists e :: e in a.dir && e.id == id)
  {
    hide Run, LedgerOf;
    HistoryIsKept(cs);
    var a, l := Run(cs), LedgerOf(cs);
    forall id: Id ensures id in a.store <==> exists e :: e in a.dir && e.id == id {
      if id in a.store {
        assert id in l.live.Keys && l.writes[l.live[id]].account in a.dir;
      }
      if exists e :: e in a.dir && e.id == id {
        assert id in l.live.Keys;
      }
    }
  }

  // ---------------------------------------------------------------- logging out

  lemma {:induction false} CandidatesOf(a: Accounts)
    ensures forall id :: id in Candidates(a) <==> Truthy(a.store, id) && exists e :: e in a.dir && e.id == id
    decreases |a.dir|
  {
    if a.dir != [] {
      var n := |a.dir| - 1;
      CandidatesOf(a.(dir := a.dir[..n]));
      assert a.dir == a.dir[..n] + [a.dir[n]];
      forall id ensures id in Candidates(a) <==> Truthy(a.store, id) && exists e :: e in a.dir && e.id == id {
        if exists e :: e in a.dir[..n] && e.id == id {
          var e :| e in a.dir[..n] && e.id == id;
          assert e in a.dir;
        }
        assert a.dir[n] in a.dir;
      }
    }
  }

  lemma {:induction false} CandidatesDescend(a: Accounts, live: map<Id, nat>)
    requires DirOrder(a.dir, live)
    ensures forall i, j | 0 <= i < j < |Candidates(a)| :: Earlier(live, Candidates(a)[j], Candidates(a)[i])
    decreases |a.dir|
  {
    if a.dir != [] {
      var n := |a.dir| - 1;
      var b := a.(dir := a.dir[..n]);
      hide Earlier;
      forall i, j | 0 <= i < j < n ensures Earlier(live, b.dir[i].id, b.dir[j].id) {
        assert Earlier(live, a.dir[i].id, a.dir[j].id);
      }
      CandidatesDescend(b, live);
      CandidatesOf(b);
      var rest := Candidates(b);
      forall j | 0 <= j < |rest| ensures Earlier(live, rest[j], a.dir[n].id) {
        assert rest[j] in Candidates(b);
        var e :| e in b.dir && e.id == rest[j];
        var k :| 0 <= k < n && a.dir[k] == e;
        assert Earlier(live, a.dir[k].id, a.dir[n].id);
      }
    }
  }

  /**
   * Signing out proposes exactly the remaining stored accounts that still have a token, the most
   * recently written first, and never the account that signs out.
   */
  lemma LogoutCandidates(cs: seq<Change>, activeId: Option<Id>)
    ensures
      var after := Logout(Run(cs), activeId);
      var l := LedgerOf(cs + [LoggedOut(activeId)]);
      && (forall id: Id :: id in Candidates(after) <==> Truthy(Run(cs).store, id) && !(activeId == Some(id) && id != 0))
      && (forall i, j | 0 <= i < j < |Candidates(after)| :: Earlier(l.live, Candidates(after)[j], Candidates(after)[i]))
  {
    var all := cs + [LoggedOut(activeId)];
    RunAppend(cs, LoggedOut(activeId));
    hide Run, LedgerOf, Candidates, Earlier, Without;
    HistoryIsKept(all);
    DirectoryIsTheStore(all);
    var after := Run(all);
    CandidatesOf(after);
    CandidatesDescend(after, LedgerOf(all).live);
  }

  lemma RunAppend(cs: seq<Change>, c: Change)
    ensures Run(cs + [c]) == Apply(Run(cs), c)
  {
    assert (cs + [c])[..|cs + [c]| - 1] == cs;
  }

  // ---------------------------------------------------------------- the cap

  /** A successful add stores exactly the accounts there were, the stashed one and the new one. */
  lemma AddStores(a: Accounts, prev: Option<Credential>, next: Credential)
    requires StashAndAdd(a, prev, next).Some?
    ensures StashAndAdd(a, prev, next).value.store.Keys == a.store.Keys + Ids(prev) + {next.account.id}
    ensures |StashAndAdd(a, prev, next).value.store| == |a.store.Keys + Ids(prev) + {next.account.id}|
  {
    hide Without;
    var r := StashAndAdd(a, prev, next).value;
    assert r.store.Keys == a.store.Keys + Ids(prev) + {next.account.id};
    assert |r.store| == |r.store.Keys|;
  }

  /**
   * From a store within the cap, a successful add stays within it if and only if it does not stash
   * a further account into a full store.
   */
  lemma AddWithinCapExactlyWhen(a: Accounts, prev: Option<Credential>, next: Credential)
    requires |a.store| <= MAX_ACCOUNTS && StashAndAdd(a, prev, next).Some?
    ensures |StashAndAdd(a, prev, next).value.store| <= MAX_ACCOUNTS
            <==> !(|a.store| == MAX_ACCOUNTS && prev.Some? && prev.value.account.id !in a.store)
  {
    hide StashAndAdd;
    AddStores(a, prev, next);
    StashedFits(a, prev, next);
    var stashed := a.store.Keys + Ids(prev);
    if prev.Some? { OneMore(a.store.Keys, prev.value.account.id); }
    OneMore(stashed, next.account.id);
    assert |a.store| == |a.store.Keys|;
  }

  /** What the guard of a successful add tells: the new account is stored already, or there is room. */
  lemma StashedFits(a: Accounts, prev: Option<Credential>, next: Credential)
    requires StashAndAdd(a, prev, next).Some?
    ensures var s := a.store.Keys + Ids(prev); next.account.id in s || |s| < MAX_ACCOUNTS
  {
    hide Without;
    var stashed := RecordAny(a, prev).store;
    assert stashed.Keys == a.store.Keys + Ids(prev);
    assert |stashed| == |stashed.Keys|;
  }

  lemma OneMore(s: set<Id>, x: Id)
    ensures |s + {x}| == if x in s then |s| else |s| + 1
  {
    if x in s { assert s + {x} == s; }
  }

  /** Nine accounts: the store is full, the current session is not in it, and its owner is added again. */
  lemma AddMayExceedCap(store: map<Id, Token>, dir: seq<DirEntry>, c: Credential)
    requires |store| == MAX_ACCOUNTS && c.account.id !in store && c.refreshToken != 0
    ensures StashAndAdd(Accounts(store, dir), Some(c), c).Some?
    ensures |StashAndAdd(Accounts(store, dir), Some(c), c).value.store| == MAX_ACCOUNTS + 1
  {
    AddStores(Accounts(store, dir), Some(c), c);
    OneMore(store.Keys, c.account.id);
    assert store.Keys + {c.account.id} + {c.account.id} == store.Keys + {c.account.id};
    assert |store| == |store.Keys|;
  }
}
