/** What whole operations leave in the keys of an item and of a collection, call by call, whatever
    other clients have done before each call. */
module OperationFacts {
  import opened Options
  import opened Sentinels
  import Ops = CacheOps
  import opened CacheOps
  import opened CacheFacts
  import opened CacheManager

  predicate KeyOf(i: Item, k: Key) { k != "" && (k == i.primary || k in i.secondary) }

  lemma KeysOf(i: Item)
    ensures forall k :: KeyOf(i, k) <==> k in KeyNames(i) && k != ""
  {
  }

  // ----- Storing -----

  /** A value offered under a lock that is still held goes to every key of the item, and without the
      lock a reader changes nothing. */
  lemma OfferStores(e: Event, i: Item, lkey: Key, s: Sentinel, k: Key)
    requires e.call == DoSetValue(lkey, KeyNames(i), i.text, s) && s.Held? && lkey != "" && KeyOf(i, k)
    ensures At(e.before, lkey) == Some(Lock(s.kind, s.id, [])) ==> Stored(e) && At(Effect(e), k) == Some(Plain(i.text))
    ensures At(e.before, lkey) != Some(Lock(s.kind, s.id, [])) ==> !Stored(e)
    ensures At(e.before, lkey) != Some(Lock(s.kind, s.id, [])) && s.kind == ReadLock ==> Effect(e) == e.before
  {
    KeysOf(i);
    assert k in KeyNames(i);
    SetFacts(e.before, lkey, KeyNames(i), i.text, s, k);
    hide KeyNames, NonEmpty;
    if At(e.before, lkey) != Some(Lock(s.kind, s.id, [])) && s.kind == ReadLock {
      ReaderKeeps(e.before, lkey, KeyNames(i), i.text, s);
    }
  }

  lemma ReaderKeeps(m: Cache, lkey: Key, keys: seq<Key>, val: string, s: Sentinel)
    requires s.Held? && s.kind == ReadLock && At(m, lkey) != Some(LockOf(s))
    ensures Ops.SetValue(m, lkey, keys, val, s).cache == m
  {
  }

  /** A miss that takes the lock asks the server and offers its answer, which goes to every key of the
      item if the lock is still there. */
  lemma MissFills(log: seq<Event>, n: nat, m: nat, i: Item, read: string -> Reading, a: Item, id: Uuid,
                  found: Option<string>, s: Sentinel, text: Option<string>, k: Key)
    requires ItemGot(log, n, m, i, read, Some(a), id, found, s, text) && !i.skipCache && !a.skipCache
    requires i.primary != "" && a.primary != "" && KeyOf(a, k) && n < |log| && i.primary !in log[n].before
    ensures text == Some(a.text) && n + 2 < |log| && log[n + 1].call == Server(text)
    ensures At(Effect(log[n]), i.primary) == Some(Lock(ReadLock, id, []))
    ensures At(log[n + 2].before, a.primary) == Some(Lock(ReadLock, id, [])) ==>
      At(Effect(log[n + 2]), k) == Some(Plain(a.text))
  {
    hide Registered, Stored;
    assert log[..m][n] == log[n];
    assert s == Held(ReadLock, id) && m == n + 1;
    hide Effect, KeyNames;
    assert log[n + 2].call == DoSetValue(a.primary, KeyNames(a), a.text, s);
    OfferStores(log[n + 2], a, a.primary, s, k);
    Missed(log[n], i.primary, id);
  }

  lemma Missed(e: Event, p: Key, id: Uuid)
    requires e.call == DoGetValue(p, true, id) && p != "" && p !in e.before
    ensures At(Effect(e), p) == Some(Lock(ReadLock, id, []))
  {
  }

  /** A cached text that does not validate is dropped from its key, and is no answer. */
  lemma InvalidIsDropped(log: seq<Event>, n: nat, key: Key, lockOnMiss: bool, read: string -> Reading, id: Uuid,
                         found: Option<string>, s: Sentinel)
    requires LookedUp(log, n, key, lockOnMiss, read, id, found, s) && key != "" && key in log[n].before
    requires log[n].before[key].Plain? && read(log[n].before[key].text).Invalid?
    ensures found == None && s == NoLock && |log| == n + 2 && key !in Effect(log[n + 1])
    ensures Effect(log[n + 1]) == log[n + 1].before - {key}
  {
  }

  /** A create that holds its lock offers the server's answer under it, before it clears anything. */
  lemma CreateStores(log: seq<Event>, n: nat, i: Item, a: Item, more: seq<Key>, id: Uuid, result: CreateResult, k: Key)
    requires ItemCreated(log, n, i, Some(a), false, more, id, result) && !a.skipCache && a.primary != "" && KeyOf(a, k)
    requires Ops.WriteSentinel(log[n].before, Create, GetItemLockKeys(Create, i), id).sentinel.Held?
    ensures result == Created(a) && n + 3 < |log| && log[n + 1].call == Server(Some(a.text))
    ensures At(log[n + 2].before, a.primary) == Some(Lock(WriteLock, id, [])) ==>
      At(Effect(log[n + 2]), k) == Some(Plain(a.text))
    ensures log[n + 3].call.DoDeleteValue?
  {
    var keys := GetItemLockKeys(Create, i);
    CreateLocks(log[n].before, keys, id);
    var s := Ops.WriteSentinel(log[n].before, Create, keys, id).sentinel;
    var front := log[..|log| - 1];
    hide Registered, Stored, Ops.WriteSentinel, GetItemLockKeys, KeyNames, Effect;
    assert front[n + 3 + 0].call == WriteClears(a, more, id)[0] && front[n + 3] == log[n + 3];
    assert log[n + 2].call == DoSetValue(a.primary, KeyNames(a), a.text, s);
    OfferStores(log[n + 2], a, a.primary, s, k);
  }

  lemma CreateLocks(m: Cache, keys: seq<Key>, id: Uuid)
    requires Ops.WriteSentinel(m, Create, keys, id).sentinel.Held?
    ensures !Ops.WriteSentinel(m, Create, keys, id).error
    ensures Ops.WriteSentinel(m, Create, keys, id).sentinel == Held(WriteLock, id)
  {
  }

  /** Whatever a create that holds its lock has done, in the end its lock is in none of the keys it
      locked, and the release changed nothing else. */
  lemma CreateLetsGo(log: seq<Event>, n: nat, i: Item, answer: Option<Item>, bypass: bool, more: seq<Key>, id: Uuid,
                     result: CreateResult, k: Key)
    requires ItemCreated(log, n, i, answer, bypass, more, id, result)
    requires Ops.WriteSentinel(log[n].before, Create, GetItemLockKeys(Create, i), id).sentinel.Held?
    ensures var last := log[|log| - 1]; var locked := KeyOf(i, k) || (k == i.globalCollection && k != "");
      At(Effect(last), k) ==
      if locked && At(last.before, k) == Some(Lock(WriteLock, id, [])) then None else At(last.before, k)
  {
    var keys := GetItemLockKeys(Create, i);
    CreateLocks(log[n].before, keys, id);
    var s := Ops.WriteSentinel(log[n].before, Create, keys, id).sentinel;
    assert k != "" ==> (k in keys <==> KeyOf(i, k) || k == i.globalCollection);
    hide ItemSaved, Ops.WriteSentinel, GetItemLockKeys;
    var last := log[|log| - 1];
    assert last.call == DoReleaseSentinel(keys, s);
    ReleaseFacts(last.before, keys, s, k);
  }

  // ----- The lists of an item -----

  /** Everything that the list d named is gone, and there is no such list any more. */
  ghost predicate Emptied(e: Event, d: Key) {
    && (d in Effect(e) ==> Effect(e)[d].Tombstone?)
    && forall k :: k != d && Listed(e.before, d, k) ==> k !in Effect(e)
  }

  lemma ClearEmpties(e: Event, d: Key, id: Uuid)
    requires e.call == DoClearDependencies(d, false, id)
    ensures Emptied(e, d)
  {
  }

  /** A write empties the list of the item and the list of its pages. */
  lemma WriteEmptiesLists(log: seq<Event>, n: nat, i: Item, lkey: Key, s: Sentinel, more: seq<Key>, id: Uuid, d: Key)
    requires ItemSaved(log, n, i, lkey, s, true, more, id) && d != "" && (d == i.dependencies || d == i.globalPages)
    ensures exists j :: n + 1 < j < |log| && j <= n + 3 && Emptied(log[j], d)
  {
    var clears := WriteClears(i, more, id);
    hide Registered, Stored, CollectionKeys, KeyNames, Effect, Emptied;
    if d == i.dependencies {
      assert log[n + 1 + 1].call == clears[1];
      ClearEmpties(log[n + 2], d, id);
    } else {
      var c := |clears| - 1;
      assert log[n + 1 + c].call == clears[c];
      ClearEmpties(log[n + 1 + c], d, id);
    }
  }

  ghost predicate InListAfter(log: seq<Event>, n: nat, d: Key, k: Key) {
    exists j :: n <= j < |log| && Listed(Effect(log[j]), d, k)
  }

  /** Some list that the item was to be put into had a tombstone. */
  ghost predicate MetTombstone(log: seq<Event>, n: nat, i: Item) {
    exists j :: n <= j < |log| && FindsTombstone(log[j], i)
  }

  ghost predicate FindsTombstone(e: Event, i: Item) {
    exists d :: d != "" && (d in i.dependencyKeys || d == i.dependencies) && d in e.before && e.before[d].Tombstone?
  }

  lemma AddLists(e: Event, dkeys: seq<Key>, names: seq<Key>, d: Key, k: Key)
    requires e.call == DoAddDependency(dkeys, names) && d in dkeys && d != "" && k in names && k != ""
    ensures !Refused(e) ==> Listed(Effect(e), d, k)
  {
    AddFacts(e.before, dkeys, names, d, k);
    hide Ops.AddDependency;
  }

  lemma RefusedBy(e: Event, dkeys: seq<Key>, names: seq<Key>) returns (d: Key)
    requires e.call == DoAddDependency(dkeys, names) && Refused(e)
    ensures d in dkeys && d != "" && d in e.before && e.before[d].Tombstone?
  {
    AddFacts(e.before, dkeys, names, "", "");
    d :| d in dkeys && d != "" && d in e.before && e.before[d].Tombstone?;
  }

  /** A stored item is put, under all its keys, into the list of everything it depends on, and its
      secondary keys into its own list. Only a tombstone stops that, and then the item is withdrawn:
      every key of it is tombstoned, last of all. */
  ghost predicate InAllLists(log: seq<Event>, n: nat, i: Item) {
    && (forall d, k :: d in i.dependencyKeys && d != "" && KeyOf(i, k) ==> InListAfter(log, n, d, k))
    && (forall k :: k in i.secondary && k != "" && i.dependencies != "" ==> InListAfter(log, n, i.dependencies, k))
  }

  ghost predicate IsWithdrawn(log: seq<Event>, i: Item, id: Uuid) {
    log != [] && forall k :: KeyOf(i, k) ==> At(Effect(log[|log| - 1]), k) == Some(Tombstone(id))
  }

  lemma RegisteredEverywhere(log: seq<Event>, n: nat, i: Item, id: Uuid)
    requires Registered(log, n, i, id)
    ensures InAllLists(log, n, i) || (MetTombstone(log, n, i) && IsWithdrawn(log, i, id))
  {
    hide Effect, KeyNames, Refused;
    KeysOf(i);
    if i.dependencyKeys == [] {
      SelfRegisteredEverywhere(log, n, i, id);
    } else {
      ParentsListed(log, n, i);
      if Refused(log[n]) {
        var d := RefusedBy(log[n], i.dependencyKeys, KeyNames(i));
        assert FindsTombstone(log[n], i);
        WithdrawnIs(log, n + 1, i, id);
      } else {
        SelfRegisteredEverywhere(log, n + 1, i, id);
        Later(log, n, i);
      }
    }
  }

  lemma ParentsListed(log: seq<Event>, n: nat, i: Item)
    requires n < |log| && log[n].call == DoAddDependency(i.dependencyKeys, KeyNames(i))
    ensures !Refused(log[n]) ==> forall d, k :: d in i.dependencyKeys && d != "" && KeyOf(i, k) ==> InListAfter(log, n, d, k)
  {
    hide Effect, Refused;
    KeysOf(i);
    hide KeyNames;
    forall d, k | !Refused(log[n]) && d in i.dependencyKeys && d != "" && KeyOf(i, k) ensures InListAfter(log, n, d, k) {
      AddLists(log[n], i.dependencyKeys, KeyNames(i), d, k);
    }
  }

  ghost predicate SelfListed(log: seq<Event>, n: nat, i: Item) {
    forall k :: k in i.secondary && k != "" && i.dependencies != "" ==> InListAfter(log, n, i.dependencies, k)
  }

  lemma SelfRegisteredEverywhere(log: seq<Event>, n: nat, i: Item, id: Uuid)
    requires SelfRegistered(log, n, i, id)
    ensures SelfListed(log, n, i) || (MetTombstone(log, n, i) && IsWithdrawn(log, i, id))
  {
    hide Effect, KeyNames, Refused;
    if i.dependencies != "" && i.secondary != [] {
      if Refused(log[n]) {
        var d := RefusedBy(log[n], [i.dependencies], i.secondary);
        assert FindsTombstone(log[n], i);
        WithdrawnIs(log, n + 1, i, id);
      } else {
        forall k | k in i.secondary && k != "" ensures InListAfter(log, n, i.dependencies, k) {
          AddLists(log[n], [i.dependencies], i.secondary, i.dependencies, k);
        }
      }
    }
  }

  lemma Later(log: seq<Event>, n: nat, i: Item)
    ensures SelfListed(log, n + 1, i) ==> SelfListed(log, n, i)
    ensures MetTombstone(log, n + 1, i) ==> MetTombstone(log, n, i)
  {
    hide Effect;
    forall k | InListAfter(log, n + 1, i.dependencies, k) ensures InListAfter(log, n, i.dependencies, k) {}
  }

  lemma WithdrawnIs(log: seq<Event>, n: nat, i: Item, id: Uuid)
    requires Withdrawn(log, n, i, id)
    ensures IsWithdrawn(log, i, id)
  {
    hide Effect;
    forall k | KeyOf(i, k) ensures At(Effect(log[|log| - 1]), k) == Some(Tombstone(id)) {
      WithdrawnEverywhere(log, n, i, id, k);
    }
  }

  // ----- Items of a list read -----

  /** A list read offers each item it may cache under the read lock on the item's collection, and
      stores it, under all its keys, exactly if that lock is still there. */
  lemma ItemOfListStored(log: seq<Event>, items: seq<Item>, s: Sentinel, id: Uuid, marks: seq<nat>, j: nat, k: Key)
    requires ItemsSaved(log, items, s, id, marks) && s == Held(ReadLock, id)
    requires j < |items| && !items[j].skipCache && items[j].globalCollection != "" && KeyOf(items[j], k)
    ensures marks[j] < |log|
    ensures var e := log[marks[j]];
      if At(e.before, items[j].globalCollection) == Some(Lock(ReadLock, id, [])) then
        Stored(e) && At(Effect(e), k) == Some(Plain(items[j].text))
      else !Stored(e) && Effect(e) == e.before
  {
    hide Registered, Stored, Effect, KeyNames;
    assert SavedBetween(log, items[j], s, id, marks[j], marks[j + 1]);
    assert log[..marks[j + 1]][marks[j]] == log[marks[j]];
    OfferStores(log[marks[j]], items[j], items[j].globalCollection, s, k);
  }

  // ----- Collections -----

  /** When a collection is stored, the list of everything it depends on already names it: that of its
      owner, those of its items, and those of all that they depend on. */
  lemma CollectionListed(log: seq<Event>, n: nat, i: Item, colItems: seq<Item>, text: string, lockKey: Key, colKey: Key,
                         s: Sentinel, x: Item, d: Key)
    requires CollectionSaved(log, n, i, colItems, text, lockKey, colKey, s, false) && Stored(log[|log| - 1]) && colKey != ""
    requires d != "" && (d == i.dependencies || (x in colItems && (d == x.dependencies || d in x.dependencyKeys)))
    ensures |log| == n + 2 && Listed(Effect(log[n]), d, colKey)
  {
    hide Effect, Refused, Stored;
    assert x in colItems && (d == x.dependencies || d in x.dependencyKeys) ==> HasDependency(x, d);
    assert MustName(i, colItems, colKey, false, d);
    Named1(log, n, i, colItems, colKey, false, d);
    NotASet(log[n]);
  }

  /** Where no list refused, the last call offers the collection, and it is cached if and only if the
      lock is still there; where one refused, nothing is offered. */
  lemma CollectionStored(log: seq<Event>, n: nat, i: Item, colItems: seq<Item>, text: string, lockKey: Key, colKey: Key,
                         s: Sentinel, isGlobal: bool)
    requires CollectionSaved(log, n, i, colItems, text, lockKey, colKey, s, isGlobal)
    requires s.Held? && s.kind == ReadLock && lockKey != "" && colKey != ""
    ensures n < |log| && var last := log[|log| - 1];
      if last.call.DoSetValue? then
        (if At(last.before, lockKey) == Some(Lock(ReadLock, s.id, [])) then At(Effect(last), colKey) == Some(Plain(text))
         else Effect(last) == last.before)
      else |log| == n + 1 && last.call.DoAddDependency? && Refused(last)
  {
    hide Effect, Refused, MustName, NamesCollection;
    var last := log[|log| - 1];
    if exists d :: MustName(i, colItems, colKey, isGlobal, d) {
      assert log[n].call.DoAddDependency? by { Extends(log[n].call, i, colItems, colKey, isGlobal); }
    }
    if last.call.DoSetValue? {
      OfferedAlone(last, lockKey, colKey, text, s);
    }
  }

  lemma Extends(call: Call, i: Item, colItems: seq<Item>, colKey: Key, isGlobal: bool)
    requires NamesCollection(call, i, colItems, colKey, isGlobal)
    ensures call.DoAddDependency?
  {
  }

  lemma OfferedAlone(e: Event, lockKey: Key, colKey: Key, text: string, s: Sentinel)
    requires e.call == DoSetValue(lockKey, [colKey], text, s) && s.Held? && s.kind == ReadLock && lockKey != "" && colKey != ""
    ensures if At(e.before, lockKey) == Some(Lock(ReadLock, s.id, [])) then At(Effect(e), colKey) == Some(Plain(text))
            else Effect(e) == e.before
  {
    assert colKey in [colKey];
    SetFacts(e.before, lockKey, [colKey], text, s, colKey);
    if At(e.before, lockKey) != Some(Lock(ReadLock, s.id, [])) { ReaderKeeps(e.before, lockKey, [colKey], text, s); }
    hide NonEmpty, Ops.SetValue;
  }

  lemma NotASet(e: Event)
    requires e.call.DoAddDependency?
    ensures !Stored(e)
  {
  }

  lemma Named1(log: seq<Event>, n: nat, i: Item, colItems: seq<Item>, colKey: Key, isGlobal: bool, d: Key)
    requires n < |log| && NamesCollection(log[n].call, i, colItems, colKey, isGlobal) && colKey != ""
    requires MustName(i, colItems, colKey, isGlobal, d)
    ensures !Refused(log[n]) ==> Listed(Effect(log[n]), d, colKey)
  {
    AddLists(log[n], log[n].call.dkeys, [colKey], d, colKey);
    hide Effect, Refused;
  }

  /** A page of the global collection is in the list of its pages. */
  lemma PageListed(log: seq<Event>, n: nat, i: Item, colItems: seq<Item>, text: string, lockKey: Key, colKey: Key, s: Sentinel)
    requires CollectionSaved(log, n, i, colItems, text, lockKey, colKey, s, true) && Stored(log[|log| - 1]) && colKey != ""
    requires i.globalPages != "" && colKey != i.globalCollection
    ensures |log| == n + 2 && Listed(Effect(log[n]), i.globalPages, colKey)
  {
    hide Effect, Refused, Stored;
    assert MustName(i, colItems, colKey, true, i.globalPages);
    Named1(log, n, i, colItems, colKey, true, i.globalPages);
    NotASet(log[n]);
  }

  /** The item has a list, which none up to it depends on. */
  ghost predicate Owns(items: seq<Item>, j: nat)
    requires j < |items|
  {
    items[j].dependencies != "" && items[j].dependencies !in ParentKeys(items[..j + 1])
  }

  ghost function Owners(items: seq<Item>): set<nat> { set j: nat | j < |items| && Owns(items, j) }

  /** What the size of a collection is measured by. */
  lemma {:induction false} CountExact(items: seq<Item>)
    ensures ParentKeys(items) == set x, d | x in items && d in x.dependencyKeys && d != "" :: d
    ensures OwnKeys(items) == |Owners(items)|
  {
    if items != [] {
      var n := |items| - 1;
      CountExact(items[..n]);
      assert items == items[..n] + [items[n]];
      OneOwner(items);
    }
  }

  lemma OwnsAlready(items: seq<Item>, j: nat)
    requires j + 1 < |items|
    ensures Owns(items[..|items| - 1], j) <==> Owns(items, j)
  {
    hide ParentKeys;
    assert items[..|items| - 1][..j + 1] == items[..j + 1];
  }

  lemma OwnersBut(items: seq<Item>, j: nat)
    requires items != []
    ensures j in Owners(items) <==> j in Owners(items[..|items| - 1]) || (j == |items| - 1 && Owns(items, j))
  {
    hide Owns;
    if j + 1 < |items| { OwnsAlready(items, j); }
  }

  lemma OneMore(a: set<nat>, b: set<nat>, n: nat, own: bool)
    requires n !in a && forall j: nat :: j in b <==> j in a || (j == n && own)
    ensures |b| == |a| + if own then 1 else 0
  {
    assert b == a + if own then {n} else {};
  }

  lemma OneOwner(items: seq<Item>)
    requires items != []
    ensures var n := |items| - 1;
      |Owners(items)| == |Owners(items[..n])| + if items[n].dependencies != "" && items[n].dependencies !in ParentKeys(items) then 1 else 0
  {
    hide ParentKeys;
    var n := |items| - 1;
    assert items[..n + 1] == items;
    var own := Owns(items, n);
    assert n !in Owners(items[..n]);
    hide Owns, Owners;
    forall j: nat ensures j in Owners(items) <==> j in Owners(items[..n]) || (j == n && own) { OwnersBut(items, j); }
    OneMore(Owners(items[..n]), Owners(items), n, own);
  }
}
