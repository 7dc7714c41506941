/** The calls that one cache operation makes to the provider, in order. Other clients may change
    the cache between any two of them, so each call is logged with the cache it found; what the
    operation guarantees is what its log looks like. */
module CacheManager {
  import opened Options
  import opened Sentinels
  import Ops = CacheOps
  import opened CacheOps
  import opened InMemory

  /** The keys and the text of an item, as its key name provider and its encoding give them. An
      empty key stands for a key that the type does not have. */
  datatype Item = Item(
    primary: Key, secondary: seq<Key>, globalCollection: Key, perItemCollection: Key,
    isModified: Key, isModifiedCollection: Key, globalPages: Key,
    dependencies: Key, dependencyKeys: seq<Key>, text: string, skipCache: bool)

  datatype Call =
    | DoWriteSentinel(stype: SentinelType, keys: seq<Key>, id: Uuid)
    | DoReleaseSentinel(keys: seq<Key>, s: Sentinel)
    | DoGetValue(key: Key, lockOnMiss: bool, id: Uuid)
    | DoSetValue(lkey: Key, keys: seq<Key>, val: string, s: Sentinel)
    | DoDeleteValue(keys: seq<Key>, tombstone: bool, id: Uuid)
    | DoAddDependency(dkeys: seq<Key>, names: seq<Key>)
    | DoClearDependencies(dkey: Key, tombstone: bool, id: Uuid)
    | Server(answer: Option<string>)

  datatype Event = Event(call: Call, before: Cache)

  function Effect(e: Event): Cache {
    var m := e.before;
    match e.call
    case DoWriteSentinel(stype, keys, id) => Ops.WriteSentinel(m, stype, keys, id).cache
    case DoReleaseSentinel(keys, s) => Ops.ReleaseSentinel(m, keys, s)
    case DoGetValue(key, lockOnMiss, id) => if key == "" then m else Ops.GetValue(m, key, lockOnMiss, id).cache
    case DoSetValue(lkey, keys, val, s) => Ops.SetValue(m, lkey, keys, val, s).cache
    case DoDeleteValue(keys, tombstone, id) => Ops.DeleteValue(m, keys, tombstone, true, id)
    case DoAddDependency(dkeys, names) => Ops.AddDependency(m, dkeys, names).cache
    case DoClearDependencies(dkey, tombstone, id) => Ops.ClearDependencies(m, dkey, tombstone, id)
    case Server(_) => m
  }

  predicate Stored(e: Event) { e.call.DoSetValue? && Ops.SetValue(e.before, e.call.lkey, e.call.keys, e.call.val, e.call.s).set_ }

  predicate Refused(e: Event) { e.call.DoAddDependency? && Ops.AddDependency(e.before, e.call.dkeys, e.call.names).error }

  /** What a look-up found, and the lock it took on a miss. An empty key is an error, and finds nothing. */
  function Got(e: Event): (Option<string>, Sentinel)
    requires e.call.DoGetValue?
  {
    if e.call.key == "" then (None, NoLock)
    else var r := Ops.GetValue(e.before, e.call.key, e.call.lockOnMiss, e.call.id); (r.value, r.sentinel)
  }

  /** What a cached text turns out to be when it is decoded and validated. */
  datatype Reading = Unreadable | Invalid | Readable

  function Optional(k: Key): seq<Key> { if k == "" then [] else [k] }

  /** The primary key always comes first. */
  function GetItemLockKeys(lockType: SentinelType, i: Item): (keys: seq<Key>)
    ensures keys != [] && keys[0] == i.primary
    ensures lockType == Read ==> keys == [i.primary]
    ensures lockType != Read ==> forall k :: k in keys <==>
      || k == i.primary || k in i.secondary || (k == i.globalCollection && k != "")
      || (lockType == Delete && k == i.perItemCollection && k != "")
  {
    match lockType
    case Read => [i.primary]
    case Create => [i.primary] + Optional(i.globalCollection) + i.secondary
    case Update => [i.primary] + Optional(i.globalCollection) + i.secondary
    case Delete => [i.primary] + Optional(i.globalCollection) + i.secondary + Optional(i.perItemCollection)
  }

  /** Every item key an operation stores under. */
  function KeyNames(i: Item): seq<Key> { i.secondary + [i.primary] }

  /** The keys that a write has to tombstone: those the caller adds; those that mark the item and
      its collection as modified; and the collection's own where it has no such mark. */
  predicate MustClear(i: Item, more: seq<Key>, k: Key) {
    && k != ""
    && (|| k in more || k == i.isModified || k == i.isModifiedCollection
        || (k == i.globalCollection && i.isModifiedCollection == ""))
  }

  function CollectionKeys(i: Item, more: seq<Key>): seq<Key> {
    (if i.isModifiedCollection == "" then Optional(i.globalCollection) else [])
    + Optional(i.isModified) + Optional(i.isModifiedCollection) + more
  }

  lemma ClearsExactly(i: Item, more: seq<Key>)
    ensures forall k :: k != "" ==> (k in CollectionKeys(i, more) <==> MustClear(i, more, k))
  {
  }

  /** The key p is in the list under dkey. */
  predicate Holds(m: Cache, dkey: Key, p: Key) { dkey in m && m[dkey].Names? && p in m[dkey].keys }

  // ----- What an operation's calls are -----

  ghost predicate CallsAt(log: seq<Event>, n: nat, calls: seq<Call>) {
    n + |calls| <= |log| && forall k :: 0 <= k < |calls| ==> log[n + k].call == calls[k]
  }

  function MaybeClear(dkey: Key, tombstone: bool, id: Uuid): seq<Call> {
    if dkey == "" then [] else [DoClearDependencies(dkey, tombstone, id)]
  }

  /** Before the server is asked to delete, the list of the item is cleared and tombstoned. The list
      of the pages is cleared only: a modified key of its own marks those. */
  function DeleteClears(i: Item, id: Uuid): seq<Call> {
    MaybeClear(i.globalPages, false, id) + MaybeClear(i.dependencies, true, id)
  }

  /** The calls from n on, to the end of the log, that take a lock. */
  ghost predicate LockTaken(log: seq<Event>, n: nat, lockType: SentinelType, i: Item, keys: seq<Key>, id: Uuid,
                            s: Sentinel, error: bool) {
    var clears := if lockType == Delete && !error then DeleteClears(i, id) else [];
    && n < |log| && log[n].call == DoWriteSentinel(lockType, keys, id)
    && (var r := Ops.WriteSentinel(log[n].before, lockType, keys, id); error == r.error && s == r.sentinel)
    && CallsAt(log, n + 1, clears) && |log| == n + 1 + |clears|
  }

  function WriteClears(i: Item, more: seq<Key>, id: Uuid): seq<Call> {
    [DoDeleteValue(CollectionKeys(i, more), true, id)]
    + MaybeClear(i.dependencies, false, id) + MaybeClear(i.globalPages, false, id)
  }

  /** The calls from n on, to the end of the log, that store one item: the value is offered first;
      collections are cleared whether or not it was stored; lists are extended only if it was; and
      the first list to refuse ends them with tombstones on every key of the item. */
  ghost predicate ItemSaved(log: seq<Event>, n: nat, i: Item, lkey: Key, s: Sentinel, clear: bool, more: seq<Key>, id: Uuid) {
    var clears := if clear then WriteClears(i, more, id) else [];
    && n < |log| && log[n].call == DoSetValue(lkey, KeyNames(i), i.text, s)
    && CallsAt(log, n + 1, clears)
    && if Stored(log[n]) then Registered(log, n + 1 + |clears|, i, id) else |log| == n + 1 + |clears|
  }

  ghost predicate Registered(log: seq<Event>, n: nat, i: Item, id: Uuid) {
    if i.dependencyKeys == [] then SelfRegistered(log, n, i, id)
    else
      && n < |log| && log[n].call == DoAddDependency(i.dependencyKeys, KeyNames(i))
      && if Refused(log[n]) then Withdrawn(log, n + 1, i, id) else SelfRegistered(log, n + 1, i, id)
  }

  ghost predicate SelfRegistered(log: seq<Event>, n: nat, i: Item, id: Uuid) {
    if i.dependencies == "" || i.secondary == [] then |log| == n
    else
      && n < |log| && log[n].call == DoAddDependency([i.dependencies], i.secondary)
      && if Refused(log[n]) then Withdrawn(log, n + 1, i, id) else |log| == n + 1
  }

  ghost predicate Withdrawn(log: seq<Event>, n: nat, i: Item, id: Uuid) {
    |log| == n + 1 && log[n].call == DoDeleteValue(KeyNames(i), true, id)
  }

  ghost predicate SavedBetween(log: seq<Event>, i: Item, s: Sentinel, id: Uuid, from: nat, to: nat) {
    && from <= to <= |log|
    && if i.skipCache then to == from else ItemSaved(log[..to], from, i, i.globalCollection, s, false, [], id)
  }

  /** The calls for each item lie between two marks, one item after the other, up to the end. */
  ghost predicate ItemsSaved(log: seq<Event>, items: seq<Item>, s: Sentinel, id: Uuid, marks: seq<nat>) {
    && |marks| == |items| + 1 && marks[|items|] == |log|
    && forall j :: 0 <= j < |items| ==> SavedBetween(log, items[j], s, id, marks[j], marks[j + 1])
  }

  /** The values that the calls of a log offer, in order. */
  function Offered(log: seq<Event>): seq<Call> {
    if log == [] then []
    else
      var last := log[|log| - 1];
      Offered(log[..|log| - 1]) + if last.call.DoSetValue? then [last.call] else []
  }

  function Offer(i: Item, s: Sentinel): seq<Call> {
    if i.skipCache then [] else [DoSetValue(i.globalCollection, KeyNames(i), i.text, s)]
  }

  function Offers(items: seq<Item>, s: Sentinel): seq<Call> {
    if items == [] then [] else Offers(items[..|items| - 1], s) + Offer(items[|items| - 1], s)
  }

  predicate HasDependency(i: Item, d: Key) { d in i.dependencyKeys || d == i.dependencies }

  ghost predicate AnyDependsOn(items: seq<Item>, d: Key) { exists i :: i in items && HasDependency(i, d) }

  /** What a stored collection depends on: what its items depend on, its items, and its owner. */
  ghost predicate DependsOn(i: Item, colItems: seq<Item>, d: Key) {
    d != "" && (d == i.dependencies || AnyDependsOn(colItems, d))
  }

  ghost predicate MustName(i: Item, colItems: seq<Item>, colKey: Key, isGlobal: bool, d: Key) {
    if isGlobal then d != "" && d == i.globalPages && colKey != i.globalCollection else DependsOn(i, colItems, d)
  }

  ghost function Named(keys: seq<Key>): set<Key> { set d | d in keys && d != "" }

  /** The keys that items depend on. */
  ghost function ParentKeys(items: seq<Item>): set<Key> {
    if items == [] then {}
    else ParentKeys(items[..|items| - 1]) + Named(items[|items| - 1].dependencyKeys)
  }

  /** How many items have a list of their own that no item up to them depends on. An item that
      comes twice counts twice. */
  ghost function OwnKeys(items: seq<Item>): nat {
    if items == [] then 0
    else
      var d := items[|items| - 1].dependencies;
      OwnKeys(items[..|items| - 1]) + if d != "" && d !in ParentKeys(items) then 1 else 0
  }

  const MAX_DEPENDENCIES := 100

  /** The size the limit is about: the owner is not counted. */
  ghost function DependencyCount(items: seq<Item>): nat { |ParentKeys(items)| + OwnKeys(items) }

  ghost predicate Cacheable(i: Item, colItems: seq<Item>, lockKey: Key, colKey: Key, s: Sentinel, isGlobal: bool) {
    && !i.skipCache && colKey != "" && lockKey != "" && s.Held?
    && (isGlobal || DependencyCount(colItems) <= MAX_DEPENDENCIES)
  }

  /** A call that puts the collection's key into exactly the lists that have to name it. */
  ghost predicate NamesCollection(call: Call, i: Item, colItems: seq<Item>, colKey: Key, isGlobal: bool) {
    && call.DoAddDependency? && call.names == [colKey]
    && forall d :: d in call.dkeys <==> MustName(i, colItems, colKey, isGlobal, d)
  }

  /** The calls from n on, to the end of the log, that store a collection: where lists have to name
      it they are extended first, and the value is set, last, unless one of them refused. */
  ghost predicate CollectionSaved(log: seq<Event>, n: nat, i: Item, colItems: seq<Item>, text: string,
                                  lockKey: Key, colKey: Key, s: Sentinel, isGlobal: bool) {
    if exists d :: MustName(i, colItems, colKey, isGlobal, d) then
      && n < |log| && NamesCollection(log[n].call, i, colItems, colKey, isGlobal)
      && if Refused(log[n]) then |log| == n + 1
         else |log| == n + 2 && log[n + 1].call == DoSetValue(lockKey, [colKey], text, s)
    else |log| == n + 1 && log[n].call == DoSetValue(lockKey, [colKey], text, s)
  }

  datatype CreateResult = Malformed | Existing(text: string) | NotLocked | NoAnswer | Created(item: Item)

  function AnswerText(answer: Option<Item>): Option<string> {
    if answer.None? then None else Some(answer.value.text)
  }

  /** The calls from n on, to the end of the log, that create an item: the lock comes before the
      server, the server before anything is stored or cleared, and the release last. Without the
      lock call the server is not asked; without an answer, or past the cache, nothing is stored. */
  ghost predicate ItemCreated(log: seq<Event>, n: nat, i: Item, answer: Option<Item>, bypass: bool, more: seq<Key>,
                              id: Uuid, result: CreateResult) {
    CreatedUnder(log, n, GetItemLockKeys(Create, i), answer, bypass, more, id, result)
  }

  ghost predicate CreatedUnder(log: seq<Event>, n: nat, keys: seq<Key>, answer: Option<Item>, bypass: bool, more: seq<Key>,
                               id: Uuid, result: CreateResult) {
    && n < |log| && log[n].call == DoWriteSentinel(Create, keys, id)
    && var r := Ops.WriteSentinel(log[n].before, Create, keys, id);
       if r.error then |log| == n + 1 && result == NotLocked
       else
         && n + 1 < |log| && log[n + 1].call == Server(AnswerText(answer))
         && result == (if answer.None? then NoAnswer else Created(answer.value))
         && var end := if r.sentinel.Held? then |log| - 1 else |log|;
            && n + 2 <= end
            && (r.sentinel.Held? ==> log[end].call == DoReleaseSentinel(keys, r.sentinel))
            && if !bypass && answer.Some? && r.sentinel.Held? && !answer.value.skipCache
               then ItemSaved(log[..end], n + 2, answer.value, answer.value.primary, r.sentinel, true, more, id)
               else end == n + 2
  }

  /** A cached text that does not validate is deleted, and then is as good as missing; one that
      cannot be decoded is left there. Either way the look-up has taken no lock. */
  ghost predicate LookedUp(log: seq<Event>, n: nat, key: Key, lockOnMiss: bool, read: string -> Reading, id: Uuid,
                           found: Option<string>, s: Sentinel) {
    && n < |log| && log[n].call == DoGetValue(key, lockOnMiss, id)
    && var (value, sentinel) := Got(log[n]);
       match value
       case None => |log| == n + 1 && found == None && s == sentinel
       case Some(text) =>
         && s == NoLock
         && match read(text)
            case Unreadable => |log| == n + 1 && found == None
            case Invalid => |log| == n + 2 && log[n + 1].call == DoDeleteValue([key], false, id) && found == None
            case Readable => |log| == n + 1 && found == Some(text)
  }

  class Manager {
    const P: InMemoryClientCacheProvider
    ghost var log: seq<Event>

    constructor (P: InMemoryClientCacheProvider)
      ensures this.P == P && log == []
    {
      this.P := P;
      log := [];
    }

    /** One more call has been made, and the cache is as it left it. */
    ghost predicate Called(before: seq<Event>, call: Call)
      reads this, P
    {
      && |log| == |before| + 1 && before <= log
      && log[|before|].call == call && P.cache == Effect(log[|before|])
    }

    /** Anything the other clients do between two calls. */
    method Interfere()
      modifies P
    {
      P.cache := *;
    }

    method AskServer(answer: Option<string>)
      modifies P, `log
      ensures Called(old(log), Server(answer))
    {
      Interfere();
      log := log + [Event(Server(answer), P.cache)];
    }

    method WriteSentinel(stype: SentinelType, keys: seq<Key>, id: Uuid) returns (s: Sentinel, error: bool)
      modifies P, `log
      ensures Called(old(log), DoWriteSentinel(stype, keys, id))
      ensures Ops.WriteSentinel(log[|old(log)|].before, stype, keys, id) == LockResult(P.cache, s, error)
    {
      Interfere();
      log := log + [Event(DoWriteSentinel(stype, keys, id), P.cache)];
      s, error := P.WriteSentinel(stype, keys, id);
    }

    method ReleaseSentinel(keys: seq<Key>, s: Sentinel)
      modifies P, `log
      ensures Called(old(log), DoReleaseSentinel(keys, s))
    {
      Interfere();
      log := log + [Event(DoReleaseSentinel(keys, s), P.cache)];
      P.ReleaseSentinel(keys, s);
    }

    method GetValue(key: Key, lockOnMiss: bool, id: Uuid) returns (value: Option<string>, s: Sentinel)
      modifies P, `log
      ensures Called(old(log), DoGetValue(key, lockOnMiss, id)) && (value, s) == Got(log[|old(log)|])
    {
      Interfere();
      log := log + [Event(DoGetValue(key, lockOnMiss, id), P.cache)];
      if key == "" {
        return None, NoLock;
      }
      var conflict;
      value, conflict, s := P.GetValue(key, lockOnMiss, id);
    }

    method SetValue(lkey: Key, keys: seq<Key>, val: string, s: Sentinel) returns (set_: bool)
      modifies P, `log
      ensures Called(old(log), DoSetValue(lkey, keys, val, s)) && set_ == Stored(log[|old(log)|])
    {
      Interfere();
      log := log + [Event(DoSetValue(lkey, keys, val, s), P.cache)];
      var conflict, error;
      set_, conflict, error := P.SetValue(lkey, keys, val, s);
    }

    method DeleteValue(keys: seq<Key>, tombstone: bool, id: Uuid)
      modifies P, `log
      ensures Called(old(log), DoDeleteValue(keys, tombstone, id))
    {
      Interfere();
      log := log + [Event(DoDeleteValue(keys, tombstone, id), P.cache)];
      P.DeleteValue(keys, tombstone, true, id);
    }

    method AddDependency(dkeys: seq<Key>, names: seq<Key>) returns (error: bool)
      modifies P, `log
      ensures Called(old(log), DoAddDependency(dkeys, names)) && error == Refused(log[|old(log)|])
    {
      Interfere();
      log := log + [Event(DoAddDependency(dkeys, names), P.cache)];
      error := P.AddDependency(dkeys, names);
    }

    /** The callers pass on the lists that an item has. */
    method MaybeClearDependencies(dkey: Key, tombstone: bool, id: Uuid)
      modifies P, `log
      ensures old(log) <= log && |log| == |old(log)| + |MaybeClear(dkey, tombstone, id)|
      ensures CallsAt(log, |old(log)|, MaybeClear(dkey, tombstone, id))
      ensures dkey != "" ==> Called(old(log), DoClearDependencies(dkey, tombstone, id))
    {
      hide Effect;
      if dkey != "" {
        ClearDependencies(dkey, tombstone, id);
      }
    }

    method ClearDependencies(dkey: Key, tombstone: bool, id: Uuid)
      requires dkey != ""
      modifies P, `log
      ensures Called(old(log), DoClearDependencies(dkey, tombstone, id))
    {
      Interfere();
      log := log + [Event(DoClearDependencies(dkey, tombstone, id), P.cache)];
      var error := P.ClearDependencies(dkey, tombstone, id);
    }

    // ----- Locks -----

    /** A delete that got this far has cleared the list of its pages, and cleared and tombstoned its
        dependency list last, before the server is asked to delete anything. Other operations only
        write the sentinel. */
    method TakeLockWorker(lockType: SentinelType, i: Item, keys: seq<Key>, id: Uuid) returns (s: Sentinel, error: bool)
      modifies P, `log
      ensures old(log) <= log && LockTaken(log, |old(log)|, lockType, i, keys, id, s, error)
      ensures lockType == Delete && !error && i.dependencies != "" ==>
        var last := log[|log| - 1];
        && At(P.cache, i.dependencies) == Some(Tombstone(id))
        && forall k :: Holds(last.before, i.dependencies, k) && k != i.dependencies ==> k !in P.cache
    {
      hide Effect, Ops.WriteSentinel, MaybeClear;
      s, error := WriteSentinel(lockType, keys, id);
      if lockType == Delete && !error {
        MaybeClearDependencies(i.globalPages, false, id);
        MaybeClearDependencies(i.dependencies, true, id);
        if i.dependencies != "" { ListBlocked(log[|log| - 1], i.dependencies, id); }
      }
    }

    method ReleaseItemLock(lockType: SentinelType, i: Item, s: Sentinel)
      modifies P, `log
      ensures if s.NoLock? then log == old(log) else Called(old(log), DoReleaseSentinel(GetItemLockKeys(lockType, i), s))
    {
      if s.NoLock? {
        return;
      }
      ReleaseSentinel(GetItemLockKeys(lockType, i), s);
    }

    // ----- Storing one item -----

    method ClearCollections(i: Item, more: seq<Key>, id: Uuid)
      modifies P, `log
      ensures old(log) <= log && |log| == |old(log)| + |WriteClears(i, more, id)|
      ensures CallsAt(log, |old(log)|, WriteClears(i, more, id))
    {
      hide Effect, CollectionKeys;
      DeleteValue(CollectionKeys(i, more), true, id);
      MaybeClearDependencies(i.dependencies, false, id);
      MaybeClearDependencies(i.globalPages, false, id);
    }

    method Register(i: Item, id: Uuid)
      modifies P, `log
      ensures old(log) <= log && Registered(log, |old(log)|, i, id)
    {
      hide Effect, Refused, KeyNames;
      var failed := false;
      if i.dependencyKeys != [] {
        failed := AddDependency(i.dependencyKeys, KeyNames(i));
      }
      if i.dependencies != "" && !failed && i.secondary != [] {
        failed := AddDependency([i.dependencies], i.secondary);
      }
      if failed {
        DeleteValue(KeyNames(i), true, id);
      }
    }

    method SaveItemToCacheWorker(i: Item, lkey: Key, s: Sentinel, clearCollection: bool, more: seq<Key>, id: Uuid)
      modifies P, `log
      ensures old(log) <= log
      ensures if i.skipCache || s.NoLock? then log == old(log)
              else ItemSaved(log, |old(log)|, i, lkey, s, clearCollection, more, id)
    {
      hide Effect, Stored, WriteClears, KeyNames, Registered;
      if i.skipCache || s.NoLock? {
        return;
      }
      var keyset := SetValue(lkey, KeyNames(i), i.text, s);
      if clearCollection {
        ClearCollections(i, more, id);
      }
      if keyset {
        Register(i, id);
      }
    }

    /** A list read offers every item it may cache, in order, each under the one lock on the global
        collection key. */
    method SaveItemsFromCollectionToCache(items: seq<Item>, s: Sentinel, id: Uuid) returns (ghost marks: seq<nat>)
      modifies P, `log
      ensures old(log) <= log
      ensures if s.NoLock? then log == old(log)
              else |marks| > 0 && marks[0] == |old(log)| && ItemsSaved(log, items, s, id, marks)
      ensures s.Held? ==> Offered(log) == Offered(old(log)) + Offers(items, s)
    {
      hide ItemSaved, Offered, Offers, ItemsSaved;
      NothingOffered(s);
      marks := [|log|];
      NothingSaved(log, s, id);
      for j := 0 to |items|
        invariant old(log) <= log && |marks| == j + 1 && marks[0] == |old(log)|
        invariant s.NoLock? ==> log == old(log)
        invariant s.Held? ==> ItemsSaved(log, items[..j], s, id, marks)
        invariant s.Held? ==> Offered(log) == Offered(old(log)) + Offers(items[..j], s)
      {
        ghost var before := log;
        SaveItemToCacheWorker(items[j], items[j].globalCollection, s, false, [], id);
        if s.Held? {
          OneOffered(before, log, items[j], s, id);
          OneMoreSaved(before, log, items[..j], items[j], s, id, marks);
        }
        marks := marks + [|log|];
        OneMoreOffer(items[..j], items[j], s);
        assert items[..j + 1] == items[..j] + [items[j]];
      }
      assert items[..|items|] == items;
    }

    // ----- Storing a collection -----

    /** The keys that one item depends on, those that are not listed yet. */
    method AddParents(depKeys: seq<Key>, seen: set<Key>, listed: seq<Key>) returns (dependentItems: set<Key>, keys: seq<Key>)
      requires forall d :: d in seen ==> d in listed
      ensures dependentItems == seen + Named(depKeys) && forall d :: d in dependentItems ==> d in keys
      ensures forall d :: d in keys <==> d in listed || d in Named(depKeys)
      ensures |keys| + |seen| == |listed| + |dependentItems|
    {
      hide Named;
      NoneDepends();
      dependentItems, keys := seen, listed;
      assert depKeys[..0] == [];
      for k := 0 to |depKeys|
        invariant dependentItems == seen + Named(depKeys[..k]) && forall d :: d in dependentItems ==> d in keys
        invariant forall d :: d in keys <==> d in listed || d in Named(depKeys[..k])
        invariant |keys| + |seen| == |listed| + |dependentItems|
      {
        var depKey := depKeys[k];
        NamedMore(depKeys[..k], depKey);
        assert depKeys[..k + 1] == depKeys[..k] + [depKey];
        if depKey !in dependentItems && depKey != "" {
          dependentItems := dependentItems + {depKey};
          keys := keys + [depKey];
        }
      }
      assert depKeys[..|depKeys|] == depKeys;
    }

    /** The dependency keys of a collection: without duplicates among the keys its items depend on,
        but a key that several items are known by is listed each time. */
    method DependentKeys(i: Item, colItems: seq<Item>) returns (keys: seq<Key>, count: nat)
      ensures forall d :: d in keys <==> DependsOn(i, colItems, d)
      ensures count == DependencyCount(colItems)
    {
      hide AnyDependsOn, HasDependency, Named, ParentKeys, OwnKeys;
      var dependentItems: set<Key> := {};
      keys := [];
      NoneDepends();
      for j := 0 to |colItems|
        invariant dependentItems == ParentKeys(colItems[..j]) && forall d :: d in dependentItems ==> d in keys
        invariant forall d :: d in keys <==> d != "" && AnyDependsOn(colItems[..j], d)
        invariant |keys| == DependencyCount(colItems[..j])
      {
        var ci := colItems[j];
        dependentItems, keys := AddParents(ci.dependencyKeys, dependentItems, keys);
        if ci.dependencies != "" && ci.dependencies !in dependentItems {
          keys := keys + [ci.dependencies];
        }
        OneMoreDepends(colItems[..j], ci);
        assert colItems[..j + 1] == colItems[..j] + [ci];
      }
      assert colItems[..|colItems|] == colItems;
      count := |keys|;
      if i.dependencies != "" && i.dependencies !in dependentItems {
        keys := keys + [i.dependencies];
      }
    }

    /** The lists that have to name the collection before it is stored. None when it depends on too
        much to be stored at all. A global collection only needs the list of its pages. */
    method ListsToExtend(i: Item, colItems: seq<Item>, colKey: Key, isGlobal: bool) returns (keys: Option<seq<Key>>)
      ensures keys.None? <==> !isGlobal && DependencyCount(colItems) > MAX_DEPENDENCIES
      ensures keys.Some? ==> forall d :: d in keys.value <==> MustName(i, colItems, colKey, isGlobal, d)
    {
      if isGlobal {
        return Some(if i.globalPages != "" && colKey != i.globalCollection then [i.globalPages] else []);
      }
      hide DependsOn, DependencyCount;
      var dependentKeys, count := DependentKeys(i, colItems);
      return if count > MAX_DEPENDENCIES then None else Some(dependentKeys);
    }

    method SaveItemsToCollection(i: Item, colItems: seq<Item>, text: string, lockKey: Key, colKey: Key, s: Sentinel, isGlobal: bool)
      modifies P, `log
      ensures old(log) <= log
      ensures if Cacheable(i, colItems, lockKey, colKey, s, isGlobal)
              then CollectionSaved(log, |old(log)|, i, colItems, text, lockKey, colKey, s, isGlobal)
              else log == old(log)
    {
      hide Effect, Refused, MustName, DependencyCount;
      if i.skipCache || colKey == "" || lockKey == "" || s.NoLock? {
        return;
      }
      var keys := ListsToExtend(i, colItems, colKey, isGlobal);
      if keys.None? {
        return;
      }
      var error := false;
      if keys.value != [] {
        assert keys.value[0] in keys.value;
        error := AddDependency(keys.value, [colKey]);
      }
      if !error {
        var set_ := SetValue(lockKey, [colKey], text, s);
      }
    }

    // ----- Whole operations -----

    /** A type that is never cached is not looked up. */
    method GetItemFromCache(key: Key, lockOnMiss: bool, skipCache: bool, read: string -> Reading, id: Uuid)
      returns (found: Option<string>, s: Sentinel)
      modifies P, `log
      ensures old(log) <= log
      ensures if skipCache then log == old(log) && found == None && s == NoLock
              else LookedUp(log, |old(log)|, key, lockOnMiss, read, id, found, s)
    {
      hide Effect, Got;
      if skipCache {
        return None, NoLock;
      }
      found, s := GetValue(key, lockOnMiss, id);
      if found.None? {
        return;
      }
      s := NoLock;
      match read(found.value)
      case Readable =>
      case Unreadable => found := None;
      case Invalid =>
        DeleteValue([key], false, id);
        found := None;
    }

    method CreateUnderLock(i: Item, answer: Option<Item>, bypass: bool, more: seq<Key>, id: Uuid) returns (result: CreateResult)
      modifies P, `log
      ensures old(log) <= log && ItemCreated(log, |old(log)|, i, answer, bypass, more, id, result)
    {
      hide Effect, ItemSaved, Ops.WriteSentinel, GetItemLockKeys;
      var sentinel, error := TakeLockWorker(Create, i, GetItemLockKeys(Create, i), id);
      if error {
        return NotLocked;
      }
      AskServer(AnswerText(answer));
      if !bypass && answer.Some? {
        SaveItemToCacheWorker(answer.value, answer.value.primary, sentinel, true, more, id);
      }
      ghost var saved := log;
      ReleaseItemLock(Create, i, sentinel);
      assert log[..|saved|] == saved;
      result := if answer.None? then NoAnswer else Created(answer.value);
    }

    /** A malformed item goes nowhere. With a key to look under, an equal item in the cache ends the
        call there, without a lock and without the server; anything else is created. */
    method CreateItem(i: Item, valid: bool, lookup: Option<Key>, read: string -> Reading, equals: string -> bool,
                      answer: Option<Item>, bypass: bool, more: seq<Key>, id: Uuid) returns (result: CreateResult)
      modifies P, `log
      ensures var n := |old(log)|;
        && old(log) <= log
        && if !valid then log == old(log) && result == Malformed
           else if lookup.None? || bypass || i.skipCache then ItemCreated(log, n, i, answer, bypass, more, id, result)
           else
             exists m, found, s :: n <= m <= |log| && LookedUp(log[..m], n, lookup.value, false, read, id, found, s) &&
               if found.Some? && equals(found.value) then m == |log| && result == Existing(found.value)
               else ItemCreated(log, m, i, answer, bypass, more, id, result)
    {
      hide Effect, ItemCreated, LookedUp;
      if !valid {
        return Malformed;
      }
      if lookup.Some? && !bypass {
        var found, s := GetItemFromCache(lookup.value, false, i.skipCache, read, id);
        ghost var seen := log;
        assert log[..|seen|] == seen;
        if found.Some? && equals(found.value) {
          return Existing(found.value);
        }
        result := CreateUnderLock(i, answer, bypass, more, id);
        assert log[..|seen|] == seen;
        return;
      }
      result := CreateUnderLock(i, answer, bypass, more, id);
    }

    /** A hit asks nobody. A miss asks the server once, and stores its answer under the lock the
        miss took; without an answer the lock is left to expire. Past the cache, and for a type that
        is never cached, only the server is asked. */
    method GetItem(i: Item, read: string -> Reading, answer: Option<Item>, bypass: bool, id: Uuid) returns (text: Option<string>)
      modifies P, `log
      ensures var n := |old(log)|;
        && old(log) <= log
        && if bypass then |log| == n + 1 && log[n].call == Server(AnswerText(answer)) && text == AnswerText(answer)
           else exists m, found, s :: ItemGot(log, n, m, i, read, answer, id, found, s, text)
      ensures !bypass && !i.skipCache && i.primary != "" ==> Answers(log, |old(log)|, i.primary, read, answer, text)
    {
      hide Effect, ItemSaved, LookedUp, Answers;
      if bypass {
        AskServer(AnswerText(answer));
        return AnswerText(answer);
      }
      ghost var n := |log|;
      var found, sentinel := GetItemFromCache(i.primary, true, i.skipCache, read, id);
      ghost var seen := log;
      assert log[..|seen|] == seen;
      if found.Some? {
        assert ItemGot(log, n, |seen|, i, read, answer, id, found, sentinel, found);
        if !i.skipCache && i.primary != "" { LookUpAnswers(log, n, |seen|, i, read, answer, id, found, sentinel, found); }
        return found;
      }
      AskServer(AnswerText(answer));
      if answer.Some? {
        SaveItemToCacheWorker(answer.value, answer.value.primary, sentinel, false, [], id);
      }
      assert log[..|seen|] == seen;
      text := AnswerText(answer);
      assert ItemGot(log, n, |seen|, i, read, answer, id, found, sentinel, text);
      if !i.skipCache && i.primary != "" { LookUpAnswers(log, n, |seen|, i, read, answer, id, found, sentinel, text); }
    }
  }

  /** What is in the key when it is looked up decides: a readable text is the answer, and nobody else
      is asked; anything else leaves the answer to the server. */
  ghost predicate Answers(log: seq<Event>, n: nat, p: Key, read: string -> Reading, answer: Option<Item>, text: Option<string>) {
    && n < |log|
    && if p in log[n].before && log[n].before[p].Plain? && read(log[n].before[p].text).Readable?
       then text == Some(log[n].before[p].text) && |log| == n + 1
       else text == AnswerText(answer) && |log| >= n + 2
            && exists j :: n < j < |log| && log[j].call == Server(AnswerText(answer))
  }

  lemma LookUpAnswers(log: seq<Event>, n: nat, m: nat, i: Item, read: string -> Reading, answer: Option<Item>, id: Uuid,
                      found: Option<string>, s: Sentinel, text: Option<string>)
    requires ItemGot(log, n, m, i, read, answer, id, found, s, text) && !i.skipCache && i.primary != ""
    ensures Answers(log, n, i.primary, read, answer, text)
  {
    hide ItemSaved;
    assert log[..m][n] == log[n];
  }

  ghost predicate ItemGot(log: seq<Event>, n: nat, m: nat, i: Item, read: string -> Reading, answer: Option<Item>, id: Uuid,
                          found: Option<string>, s: Sentinel, text: Option<string>) {
    && n <= m <= |log|
    && (if i.skipCache then m == n && found == None && s == NoLock
        else LookedUp(log[..m], n, i.primary, true, read, id, found, s))
    && if found.Some? then |log| == m && text == found
       else
         && m < |log| && log[m].call == Server(AnswerText(answer)) && text == AnswerText(answer)
         && if answer.Some? && s.Held? && !answer.value.skipCache
            then ItemSaved(log, m + 1, answer.value, answer.value.primary, s, false, [], id)
            else |log| == m + 1
  }

  // ----- What single calls leave behind -----

  /** Clearing a list with a tombstone: the tombstone stands, and what the list named is gone. */
  lemma ListBlocked(e: Event, dkey: Key, id: Uuid)
    requires e.call == DoClearDependencies(dkey, true, id)
    ensures At(Effect(e), dkey) == Some(Tombstone(id))
    ensures forall k :: Holds(e.before, dkey, k) && k != dkey ==> k !in Effect(e)
  {
  }

  /** A create that holds its lock and has an answer leaves a tombstone in every key that it has to
      clear, after the answer and before it lets go. */
  lemma CreateTombstones(log: seq<Event>, n: nat, i: Item, a: Item, more: seq<Key>, id: Uuid, result: CreateResult, k: Key)
    requires ItemCreated(log, n, i, Some(a), false, more, id, result) && !a.skipCache && MustClear(a, more, k)
    requires Ops.WriteSentinel(log[n].before, Create, GetItemLockKeys(Create, i), id).sentinel.Held?
    ensures exists j :: n + 1 < j < |log| - 1 && At(Effect(log[j]), k) == Some(Tombstone(id))
  {
    var front := log[..|log| - 1];
    hide Registered, Stored, Ops.WriteSentinel, GetItemLockKeys, KeyNames;
    assert !Ops.WriteSentinel(log[n].before, Create, GetItemLockKeys(Create, i), id).error by {
      HeldNoError(log[n].before, GetItemLockKeys(Create, i), id);
    }
    var clears := WriteClears(a, more, id);
    assert front[n + 3 + 0].call == clears[0] && log[n + 3] == front[n + 3];
    ClearsExactly(a, more);
    assert At(Effect(log[n + 3]), k) == Some(Tombstone(id));
  }

  lemma HeldNoError(m: Cache, keys: seq<Key>, id: Uuid)
    requires Ops.WriteSentinel(m, Create, keys, id).sentinel.Held?
    ensures !Ops.WriteSentinel(m, Create, keys, id).error
  {
  }

  /** A stored item is under its primary key and under all its secondary keys. */
  lemma StoredEverywhere(log: seq<Event>, n: nat, i: Item, lkey: Key, s: Sentinel, clear: bool, more: seq<Key>, id: Uuid, k: Key)
    requires ItemSaved(log, n, i, lkey, s, clear, more, id) && Stored(log[n])
    ensures At(Effect(log[n]), k) ==
            if k != "" && (k == i.primary || k in i.secondary) then Some(Plain(i.text)) else At(log[n].before, k)
  {
    hide Registered, CollectionKeys;
    assert forall x :: x in KeyNames(i) <==> x == i.primary || x in i.secondary;
  }

  /** A registration that was refused leaves the item under none of its keys. */
  lemma WithdrawnEverywhere(log: seq<Event>, n: nat, i: Item, id: Uuid, k: Key)
    requires Withdrawn(log, n, i, id) && k != "" && (k == i.primary || k in i.secondary)
    ensures At(Effect(log[|log| - 1]), k) == Some(Tombstone(id))
  {
    assert k in KeyNames(i);
  }

  // ----- Counting what a collection depends on -----

  lemma NoneDepends()
    ensures ParentKeys([]) == {} && OwnKeys([]) == 0 && Named([]) == {} && forall d :: !AnyDependsOn([], d)
  {
  }

  lemma NamedMore(keys: seq<Key>, d: Key)
    ensures Named(keys + [d]) == Named(keys) + if d == "" then {} else {d}
  {
  }

  lemma OneMoreDepends(items: seq<Item>, i: Item)
    ensures "" !in Named(i.dependencyKeys)
    ensures ParentKeys(items + [i]) == ParentKeys(items) + Named(i.dependencyKeys)
    ensures OwnKeys(items + [i]) ==
            OwnKeys(items) + if i.dependencies != "" && i.dependencies !in ParentKeys(items + [i]) then 1 else 0
    ensures forall d :: d != "" ==>
      (AnyDependsOn(items + [i], d) <==> AnyDependsOn(items, d) || d in Named(i.dependencyKeys) || d == i.dependencies)
  {
    assert (items + [i])[..|items|] == items;
    forall d | d != ""
      ensures AnyDependsOn(items + [i], d) <==> AnyDependsOn(items, d) || d in Named(i.dependencyKeys) || d == i.dependencies
    {
      if HasDependency(i, d) { assert i in items + [i]; }
      if AnyDependsOn(items, d) {
        var e :| e in items && HasDependency(e, d);
        assert e in items + [i];
      }
    }
  }

  // ----- What the calls come to -----

  lemma NothingOffered(s: Sentinel)
    ensures Offered([]) == [] && Offers([], s) == []
  {
  }

  lemma {:induction false} OfferedConcat(a: seq<Event>, b: seq<Event>)
    ensures Offered(a + b) == Offered(a) + Offered(b)
  {
    if b == [] {
      assert a + b == a;
    } else {
      assert (a + b)[..|a + b| - 1] == a + b[..|b| - 1];
      OfferedConcat(a, b[..|b| - 1]);
    }
  }

  ghost predicate SetsNothing(log: seq<Event>, n: nat) { forall k :: n <= k < |log| ==> !log[k].call.DoSetValue? }

  lemma RegisteringSetsNothing(log: seq<Event>, n: nat, i: Item, id: Uuid)
    requires Registered(log, n, i, id)
    ensures SetsNothing(log, n)
  {
    hide Refused, KeyNames;
  }

  /** Storing an item sets one value, in its first call. */
  lemma SavedOffersOnce(log: seq<Event>, n: nat, i: Item, lkey: Key, s: Sentinel, id: Uuid)
    requires ItemSaved(log, n, i, lkey, s, false, [], id)
    ensures n < |log| && log[n].call == DoSetValue(lkey, KeyNames(i), i.text, s) && SetsNothing(log, n + 1)
  {
    hide Stored, Registered, KeyNames;
    if Stored(log[n]) { RegisteringSetsNothing(log, n + 1, i, id); }
  }

  lemma {:induction false} FirstOffered(log: seq<Event>)
    requires log != [] && log[0].call.DoSetValue? && SetsNothing(log, 1)
    ensures Offered(log) == [log[0].call]
    decreases |log|
  {
    if |log| == 1 {
      assert log[..0] == [] && Offered(log[..0]) == [];
    } else {
      FirstOffered(log[..|log| - 1]);
    }
  }

  lemma OneOffered(before: seq<Event>, log: seq<Event>, i: Item, s: Sentinel, id: Uuid)
    requires before <= log
    requires if i.skipCache then log == before else ItemSaved(log, |before|, i, i.globalCollection, s, false, [], id)
    ensures Offered(log) == Offered(before) + Offer(i, s)
  {
    if !i.skipCache {
      hide Offered, ItemSaved, KeyNames;
      var added := log[|before|..];
      SavedOffersOnce(log, |before|, i, i.globalCollection, s, id);
      assert SetsNothing(added, 1) by {
        forall k | 1 <= k < |added| ensures !added[k].call.DoSetValue? { assert added[k] == log[|before| + k]; }
      }
      FirstOffered(added);
      OfferedConcat(before, added);
      assert log == before + added;
    }
  }

  lemma NothingSaved(log: seq<Event>, s: Sentinel, id: Uuid)
    ensures ItemsSaved(log, [], s, id, [|log|])
  {
  }

  lemma OneMoreSaved(before: seq<Event>, log: seq<Event>, items: seq<Item>, i: Item, s: Sentinel, id: Uuid, marks: seq<nat>)
    requires before <= log && ItemsSaved(before, items, s, id, marks)
    requires if i.skipCache then log == before else ItemSaved(log, |before|, i, i.globalCollection, s, false, [], id)
    ensures ItemsSaved(log, items + [i], s, id, marks + [|log|])
  {
    hide ItemSaved;
    var more, next := items + [i], marks + [|log|];
    assert log[..|log|] == log;
    forall j | 0 <= j < |more| ensures SavedBetween(log, more[j], s, id, next[j], next[j + 1]) {
      if j < |items| {
        assert SavedBetween(before, items[j], s, id, marks[j], marks[j + 1]);
        assert log[..marks[j + 1]] == before[..marks[j + 1]];
      }
    }
  }

  lemma OneMoreOffer(items: seq<Item>, i: Item, s: Sentinel)
    ensures Offers(items + [i], s) == Offers(items, s) + Offer(i, s)
  {
    assert (items + [i])[..|items|] == items;
  }
}
