/** Items of one type with their global collection key. A list read locks only the collection
    key and then fills the primary keys of the items it was given; item reads lock the primary
    key they miss; mutations lock both. The state is the provider's whole map. */
module ListProtocol {
  import opened Options
  import opened Sentinels
  import opened CacheOps
  import opened SlotOps

  /** The primary keys of the type's items and the key of the collection of all of them. */
  datatype Layout = Layout(prim: set<Key>, global: Key) {
    predicate Valid() { global !in prim && "" !in prim && global != "" }
    /** Secondary keys and per item collections. */
    predicate Outside(k: Key) { k !in prim && k != global }
  }

  datatype Phase = Locked | Acted | Failed | Saved | Cleared | Gone

  datatype Client =
    | Mutation(stype: SentinelType, key: Key, lockKeys: seq<Key>, sentinel: Sentinel, phase: Phase, val: Option<string>)
    | ItemRead(key: Key, fetched: bool, val: Option<string>)
    | ListRead(snap: map<Key, string>)

  datatype State = State(cache: Cache, server: map<Key, string>, clients: map<Uuid, Client>)

  datatype Step =
    | Begin(id: Uuid, stype: SentinelType, key: Key, sk: seq<Key>)
    | Commit(id: Uuid, text: string)
    | Fail(id: Uuid)
    | Save(id: Uuid, sk: seq<Key>)
    | ClearCollections(id: Uuid, ckeys: seq<Key>, tombId: Uuid)
    | Release(id: Uuid)
    | ItemMiss(id: Uuid, key: Key)
    | ItemFetch(id: Uuid)
    | ItemSave(id: Uuid, sk: seq<Key>)
    | ListMiss(id: Uuid)
    | ListFetch(id: Uuid, page: set<Key>)
    | ListSaveItem(id: Uuid, key: Key, sk: seq<Key>)
    | ListSave(id: Uuid, colKey: Key, text: string)
    | ListRelease(id: Uuid)
    | Refuse(key: Key, sk: seq<Key>, tombId: Uuid)
    | Drop(key: Key)
    | Expire(key: Key)
    | Elsewhere(key: Key, e: Option<Entry>)

  function Lookup(server: map<Key, string>, k: Key): Option<string> {
    if k in server then Some(server[k]) else None
  }

  ghost predicate Active(s: State, id: Uuid) {
    id in s.clients && s.clients[id].Mutation? && s.clients[id].phase != Gone
  }

  ghost predicate Quiet(s: State) { forall id :: !Active(s, id) }

  /** Secondary keys of the item at key that are no other item's primary key and not the
      collection's. */
  predicate Apart(L: Layout, key: Key, sk: seq<Key>) { forall k :: k in sk ==> k == key || L.Outside(k) }

  /** The step names an item by keys that only it has. */
  predicate Tidy(L: Layout, s: State, step: Step) {
    match step
    case Begin(_, _, key, sk) => Apart(L, key, sk)
    case Save(id, sk) => id in s.clients && s.clients[id].Mutation? ==> Apart(L, s.clients[id].key, sk)
    case ItemSave(id, sk) => id in s.clients && s.clients[id].ItemRead? ==> Apart(L, s.clients[id].key, sk)
    case ListSaveItem(_, key, sk) => Apart(L, key, sk)
    case Refuse(key, sk, _) => Apart(L, key, sk)
    case _ => true
  }

  ghost predicate Enabled(L: Layout, s: State, step: Step) { Possible(L, s, step) && Tidy(L, s, step) }

  ghost predicate Possible(L: Layout, s: State, step: Step) {
    match step
    // Mutations come one at a time.
    case Begin(id, stype, key, _) =>
      id !in s.clients && stype != Read && Quiet(s) && key in L.prim
    case Commit(id, _) => id in s.clients && s.clients[id].Mutation? && s.clients[id].phase == Locked
    case Fail(id) => id in s.clients && s.clients[id].Mutation? && s.clients[id].phase == Locked
    case Save(id, _) =>
      && id in s.clients && s.clients[id].Mutation? && s.clients[id].phase == Acted
      && s.clients[id].stype != Delete && s.clients[id].val.Some?
    case ClearCollections(id, ckeys, _) =>
      id in s.clients && s.clients[id].Mutation? && s.clients[id].phase == Saved && forall k :: k in ckeys ==> k !in L.prim
    case Release(id) =>
      && id in s.clients && s.clients[id].Mutation?
      && s.clients[id].phase != Locked && s.clients[id].phase != Saved && s.clients[id].phase != Gone
    case ItemMiss(id, key) => id !in s.clients && key in L.prim && key !in s.cache
    case ItemFetch(id) => id in s.clients && s.clients[id].ItemRead?
    case ItemSave(id, _) => id in s.clients && s.clients[id].ItemRead? && s.clients[id].fetched && s.clients[id].val.Some?
    case ListMiss(id) => id !in s.clients && L.global !in s.cache
    case ListFetch(id, _) => id in s.clients && s.clients[id].ListRead?
    case ListSaveItem(id, key, _) =>
      id in s.clients && s.clients[id].ListRead? && key in s.clients[id].snap
    case ListSave(id, colKey, _) => id in s.clients && s.clients[id].ListRead? && colKey !in L.prim
    case ListRelease(id) => id in s.clients && s.clients[id].ListRead?
    // A save, of whatever client, whose registration was refused overwrites all keys of its item.
    case Refuse(key, _, _) => key in L.prim
    // Plain values and read locks may go at any time.
    case Drop(key) =>
      key in s.cache && (s.cache[key].Plain? || (s.cache[key].Lock? && s.cache[key].kind == ReadLock))
    // Tombstones are re-armed by the mutation that meets them, so they outlast it.
    case Expire(key) => key in s.cache && s.cache[key].Tombstone? && Quiet(s)
    case Elsewhere(key, _) => L.Outside(key)
  }

  function Apply(L: Layout, s: State, step: Step): State
    requires L.Valid() && Possible(L, s, step)
  {
    match step
    case Begin(id, stype, key, sk) =>
      var keys := [key, L.global] + sk;
      var r := WriteSentinel(s.cache, stype, keys, id);
      s.(cache := r.cache, clients := s.clients[id := Mutation(stype, key, keys, r.sentinel, Locked, None)])
    case Commit(id, text) =>
      var c := s.clients[id];
      if c.stype == Delete then
        s.(server := s.server - {c.key}, clients := s.clients[id := c.(phase := Acted)])
      else
        s.(server := s.server[c.key := text], clients := s.clients[id := c.(phase := Acted, val := Some(text))])
    case Fail(id) => s.(clients := s.clients[id := s.clients[id].(phase := Failed)])
    case Save(id, sk) =>
      var c := s.clients[id];
      s.(cache := if c.sentinel.NoLock? then s.cache else SetValue(s.cache, c.key, sk + [c.key], c.val.value, c.sentinel).cache,
         clients := s.clients[id := c.(phase := Saved)])
    case ClearCollections(id, ckeys, tombId) =>
      s.(cache := if s.clients[id].sentinel.NoLock? then s.cache else DeleteValue(s.cache, ckeys, true, true, tombId),
         clients := s.clients[id := s.clients[id].(phase := Cleared)])
    case Release(id) =>
      s.(cache := ReleaseSentinel(s.cache, s.clients[id].lockKeys, s.clients[id].sentinel),
         clients := s.clients[id := s.clients[id].(phase := Gone)])
    case ItemMiss(id, key) =>
      s.(cache := GetValue(s.cache, key, true, id).cache, clients := s.clients[id := ItemRead(key, false, None)])
    case ItemFetch(id) =>
      s.(clients := s.clients[id := s.clients[id].(fetched := true, val := Lookup(s.server, s.clients[id].key))])
    case ItemSave(id, sk) =>
      var c := s.clients[id];
      s.(cache := SetValue(s.cache, c.key, sk + [c.key], c.val.value, Held(ReadLock, id)).cache)
    case ListMiss(id) =>
      s.(cache := GetValue(s.cache, L.global, true, id).cache, clients := s.clients[id := ListRead(map[])])
    case ListFetch(id, page) =>
      // One page of the list; the items of earlier pages are kept as they were fetched.
      s.(clients := s.clients[id := ListRead(s.clients[id].snap + map k | k in s.server && k in page && k in L.prim :: s.server[k])])
    case ListSaveItem(id, key, sk) =>
      s.(cache := SetValue(s.cache, L.global, sk + [key], s.clients[id].snap[key], Held(ReadLock, id)).cache)
    case ListSave(id, colKey, text) =>
      s.(cache := SetValue(s.cache, L.global, [colKey], text, Held(ReadLock, id)).cache)
    case ListRelease(id) => s.(cache := ReleaseSentinel(s.cache, [L.global], Held(ReadLock, id)))
    case Refuse(key, sk, tombId) => s.(cache := DeleteValue(s.cache, sk + [key], true, true, tombId))
    case Drop(key) => s.(cache := s.cache - {key})
    case Expire(key) => s.(cache := s.cache - {key})
    case Elsewhere(key, e) => s.(cache := match e case None => s.cache - {key} case Some(x) => s.cache[key := x])
  }

  ghost predicate Legal(L: Layout, s: State, run: seq<Step>)
    requires L.Valid()
    decreases run
  {
    run == [] || (Enabled(L, s, run[0]) && Legal(L, Apply(L, s, run[0]), run[1..]))
  }

  function After(L: Layout, s: State, run: seq<Step>): State
    requires L.Valid() && Legal(L, s, run)
    decreases run
  {
    if run == [] then s else After(L, Apply(L, s, run[0]), run[1..])
  }

  ghost predicate Init(L: Layout, s: State) {
    && s.clients == map[]
    && (forall k :: (k in L.prim || k == L.global) && k in s.cache ==> s.cache[k].Plain?)
    && Fresh(L, s)
  }

  /** Every plain value in a primary key is the server's current item. */
  ghost predicate Fresh(L: Layout, s: State) {
    forall k :: k in L.prim && k in s.cache && s.cache[k].Plain? ==> k in s.server && s.server[k] == s.cache[k].text
  }

  /** A collection key that a list read could find or take means that nobody is changing the list. */
  ghost predicate ListsSafe(L: Layout, s: State) {
    L.global !in s.cache || s.cache[L.global].Plain? || (s.cache[L.global].Lock? && s.cache[L.global].kind == ReadLock)
    ==> Quiet(s)
  }

  // ----- The invariant -----

  ghost predicate OneMutation(s: State) { forall a, b :: Active(s, a) && Active(s, b) ==> a == b }

  /** A mutation holds its item's key until it saves or lets go, unless a refused save has put a
      tombstone over it, and the collection key (or the tombstone it found or left there) until it
      lets go. */
  ghost predicate MutationHolds(L: Layout, s: State, id: Uuid)
    requires Active(s, id)
  {
    var c := s.clients[id];
    && c.key in L.prim && c.sentinel == Held(KindOf(c.stype), id) && c.stype != Read
    && (c.phase in {Locked, Acted, Failed} ==>
          c.key in s.cache && (s.cache[c.key] == LockOf(c.sentinel) || s.cache[c.key].Tombstone?))
    && L.global in s.cache && (s.cache[L.global] == LockOf(c.sentinel) || s.cache[L.global].Tombstone?)
    && (c.phase == Acted && c.stype != Delete ==> c.val.Some? && Lookup(s.server, c.key) == c.val)
    && (c.phase == Acted || c.phase == Failed || c.phase == Locked || c.stype != Delete)
    && c.lockKeys != [] && c.key in c.lockKeys && (forall k :: k in c.lockKeys ==> k == c.key || k !in L.prim)
  }

  ghost predicate PrimaryOk(L: Layout, s: State, k: Key) {
    k in s.cache ==>
      match s.cache[k]
      case Names(_) => false
      case Tombstone(_) => true
      case Plain(text) => Lookup(s.server, k) == Some(text)
      case Lock(kind, id, _) =>
        if kind == ReadLock then
          id in s.clients && s.clients[id].ItemRead? && s.clients[id].key == k
          && (s.clients[id].fetched ==> s.clients[id].val == Lookup(s.server, k))
        else Active(s, id) && s.clients[id].sentinel.Held? && s.cache[k] == LockOf(s.clients[id].sentinel) && s.clients[id].key == k
  }

  ghost predicate GlobalOk(L: Layout, s: State) {
    L.global in s.cache ==>
      match s.cache[L.global]
      case Names(_) => false
      case Lock(kind, id, _) =>
        kind == ReadLock ==>
          && id in s.clients && s.clients[id].ListRead?
          && forall k :: k in s.clients[id].snap ==> k in L.prim && Lookup(s.server, k) == Some(s.clients[id].snap[k])
      case _ => true
  }

  ghost predicate ListInv(L: Layout, s: State) {
    && OneMutation(s)
    && (forall id :: Active(s, id) ==> MutationHolds(L, s, id))
    && (forall k :: k in L.prim ==> PrimaryOk(L, s, k))
    && GlobalOk(L, s)
    && (forall id :: id in s.clients && s.clients[id].ListRead? ==> forall k :: k in s.clients[id].snap ==> k in L.prim)
    && (forall id :: id in s.clients && s.clients[id].ItemRead? ==> s.clients[id].key in L.prim)
  }
}
