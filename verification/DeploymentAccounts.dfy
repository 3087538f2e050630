/** The account store as the object it is: load, change a local copy step by step, save. */
module DeploymentAccounts {
  import opened Options
  import opened SavedAccounts

  const NOTHING := Store([], map[], None)

  class DeploymentAccounts {
    /** The decrypted content of the blob. */
    var blob: Store
    /** The cipher can be used; the blob can be written; what was written reads back. */
    var available: bool
    var writable: bool
    var readsBack: bool

    constructor (blob: Store, available: bool, writable: bool, readsBack: bool)
      ensures this.blob == blob && this.available == available && this.writable == writable && this.readsBack == readsBack
    {
      this.blob, this.available, this.writable, this.readsBack := blob, available, writable, readsBack;
    }

    /** `load`. */
    function Load(): Store
      reads this
    {
      if available then blob else NOTHING
    }

    /** What the blob holds after `save` was given `store`: it is written before it is read back. */
    ghost predicate SavedOrNot(store: Store, before: Store, ok: bool)
      reads this
    {
      (ok <==> available && writable && readsBack) && blob == if available && writable then store else before
    }

    /** `save`: false also when the new blob was written and only its reading back failed. */
    method Save(store: Store) returns (ok: bool)
      modifies `blob
      ensures SavedOrNot(store, old(blob), ok)
    {
      if !available || !writable { return false; }
      blob := store;
      ok := readsBack;
    }

    /** `findIndex` by account key. */
    method FindIndex(entries: seq<Entry>, key: AccountKey) returns (index: nat)
      ensures index == IndexOf(Keys(entries), key)
    {
      index := 0;
      while index < |entries| && KeyOf(entries[index]) != key
        invariant index <= |entries| && forall j | 0 <= j < index :: KeyOf(entries[j]) != key
      {
        index := index + 1;
      }
      assert Keys(entries)[..index] + Keys(entries)[index..] == Keys(entries);
      assert index < |entries| ==> Keys(entries)[index] == key;
    }

    /** `put`. */
    method Put(target: Target, tokens: Tokens, activate: bool) returns (ok: bool)
      modifies `blob
      ensures SavedOrNot(SavedAccounts.Put(old(Load()), target, tokens, activate), old(blob), ok)
    {
      var store := Load();
      var key := AccountKey(target.deployment, tokens.user);
      var index := FindIndex(store.entries, key);
      if index == |store.entries| {
        store := store.(entries := store.entries + [Entry(target, tokens, None)]);
      } else {
        store := store.(entries := store.entries[index := store.entries[index].(target := target, tokens := tokens)]);
      }
      if activate {
        store := store.(active := store.active[target.deployment := key]);
      }
      ok := Save(store);
    }

    /** `remove`: three loops, over entries, the stored order and the active pointers. */
    method Remove(key: AccountKey) returns (ok: bool)
      modifies `blob
      ensures SavedOrNot(SavedAccounts.Remove(old(Load()), key), old(blob), ok)
    {
      var store := Load();
      var entries := KeepEntries(store.entries, key);
      var order := store.order;
      if order.Some? {
        var kept := KeepKeys(order.value, key);
        order := Some(kept);
      }
      var active := DropPointers(store.active, key);
      ok := Save(Store(entries, active, order));
    }

    /** `move`. */
    method Move(key: AccountKey, direction: Direction) returns (ok: bool)
      modifies `blob
      ensures
        var moved := SavedAccounts.Move(old(Load()), key, direction);
        if moved.Some? then SavedOrNot(moved.value, old(blob), ok) else !ok && blob == old(blob)
    {
      hide Ordered;
      var store := Load();
      var entries := Ordered(store);
      var order := Keys(entries);
      var index := FindIndex(entries, key);
      if index == |order| || (direction.Up? && index == 0) || (direction.Down? && index + 1 == |order|) {
        return false;
      }
      var next := if direction.Up? then index - 1 else index + 1;
      var moved := order[index];
      order := order[index := order[next]];
      order := order[next := moved];
      ok := Save(store.(order := Some(order)));
    }
  }

  method KeepEntries(entries: seq<Entry>, key: AccountKey) returns (kept: seq<Entry>)
    ensures kept == Filter(entries, (e: Entry) => KeyOf(e) != key)
  {
    ghost var p := (e: Entry) => KeyOf(e) != key;
    kept := [];
    for i := 0 to |entries|
      invariant kept == Filter(entries[..i], p)
    {
      assert entries[..i + 1] == entries[..i] + [entries[i]];
      FilterAppend(entries[..i], [entries[i]], p);
      FilterOne(entries[i], p);
      if KeyOf(entries[i]) != key { kept := kept + [entries[i]]; }
    }
    assert entries[..|entries|] == entries;
  }

  method KeepKeys(keys: seq<AccountKey>, key: AccountKey) returns (kept: seq<AccountKey>)
    ensures kept == Filter(keys, (k: AccountKey) => k != key)
  {
    ghost var p := (k: AccountKey) => k != key;
    kept := [];
    for i := 0 to |keys|
      invariant kept == Filter(keys[..i], p)
    {
      assert keys[..i + 1] == keys[..i] + [keys[i]];
      FilterAppend(keys[..i], [keys[i]], p);
      FilterOne(keys[i], p);
      if keys[i] != key { kept := kept + [keys[i]]; }
    }
    assert keys[..|keys|] == keys;
  }

  /** `for (const [target, active] of Object.entries(store.active)) if (active === key) delete ...`. */
  method DropPointers(active0: map<Deployment, AccountKey>, key: AccountKey) returns (active: map<Deployment, AccountKey>)
    ensures active == map d | d in active0 && active0[d] != key :: active0[d]
  {
    active := active0;
    var todo := active0.Keys;
    while todo != {}
      invariant todo <= active0.Keys
      invariant active == map d | d in active0 && (d in todo || active0[d] != key) :: active0[d]
    {
      var d :| d in todo;
      if active0[d] == key { active := active - {d}; }
      todo := todo - {d};
    }
  }
}
