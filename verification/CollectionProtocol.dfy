/** Cached collections and paths (the edges of an object, the edges between two objects, the path
    that proves an attribute): how they are filled, how creates clear them, and how deletes clear
    and tombstone the dependency lists that name them. */
module CollectionProtocol {
  import opened Sentinels
  import opened CacheOps

  /** Dependency keys and collection keys; items use other keys. */
  datatype Layout = Layout(deps: set<Key>, cols: set<Key>) {
    predicate Valid() { deps !! cols && "" !in deps && "" !in cols }
    predicate NoDeps(keys: seq<Key>) { forall k :: k in keys ==> k !in deps }
    predicate ItemKeys(keys: seq<Key>) { forall k :: k in keys ==> k !in deps && k !in cols }
  }

  datatype FillPhase = Locked | Fetched | Registered | Installed | Over

  /** A read that missed: deps are the dependency keys of the items the server returned. */
  datatype Fill = Fill(col: Key, phase: FillPhase, deps: seq<Key>, text: string, fetchAt: nat)

  datatype CreatePhase = Creating | Committed | Cleared | Returned

  datatype Creator = Creator(granted: bool, clears: seq<Key>, phase: CreatePhase, commitAt: nat)

  datatype DeletePhase = Asked | Blocked | Deleted

  datatype Deleter = Deleter(dep: Key, phase: DeletePhase, commitAt: nat)

  /** owner says which fill a collection key's plain value came from. */
  datatype State = State(cache: Cache, fills: map<Uuid, Fill>, creators: map<Uuid, Creator>,
                         deleters: map<Uuid, Deleter>, owner: map<Key, Uuid>, used: set<Uuid>, now: nat)

  datatype Step =
    | FillLock(id: Uuid, col: Key)
    | FillFetch(id: Uuid, text: string, deps: seq<Key>)
    | FillRegister(id: Uuid)
    | FillInstall(id: Uuid)
    | FillRelease(id: Uuid)
    | CreateBegin(id: Uuid, lockKeys: seq<Key>, clears: seq<Key>)
    | CreateCommit(id: Uuid)
    | CreateClear(id: Uuid, more: seq<Key>, tombId: Uuid)
    | CreateReturn(id: Uuid)
    | DeleteBegin(id: Uuid, lockKeys: seq<Key>, dep: Key)
    | DeleteBlock(id: Uuid, tombId: Uuid)
    | DeleteCommit(id: Uuid)
    | OtherLock(id: Uuid, stype: SentinelType, keys: seq<Key>)
    | OtherSet(lkey: Key, keys: seq<Key>, text: string, s: Sentinel)
    | OtherRelease(keys: seq<Key>, s: Sentinel)
    | OtherDelete(keys: seq<Key>, tombstone: bool, force: bool, tombId: Uuid)
    | OtherRegister(dkeys: seq<Key>, names: seq<Key>)
    | OtherClear(dep: Key, tombstone: bool, tombId: Uuid)
    | FlushAll(prefix: string)
    | Evict(key: Key)
    | Expire(dep: Key)

  ghost predicate Enabled(L: Layout, s: State, step: Step) {
    match step
    case FillLock(id, col) => id !in s.used && col in L.cols && col !in s.cache
    case FillFetch(id, _, deps) => id in s.fills && s.fills[id].phase == Locked && forall d :: d in deps ==> d in L.deps
    case FillRegister(id) => id in s.fills && s.fills[id].phase == Fetched
    case FillInstall(id) => id in s.fills && s.fills[id].phase == Registered
    case FillRelease(id) => id in s.fills && s.fills[id].phase != Locked
    case CreateBegin(id, lockKeys, clears) => id !in s.used && L.NoDeps(lockKeys) && L.NoDeps(clears)
    case CreateCommit(id) => id in s.creators && s.creators[id].phase == Creating
    case CreateClear(id, more, _) =>
      id in s.creators && s.creators[id].phase == Committed && s.creators[id].granted && L.NoDeps(more)
    // A create that was refused the lock returns without clearing.
    case CreateReturn(id) =>
      id in s.creators && s.creators[id].phase == if s.creators[id].granted then Cleared else Committed
    case DeleteBegin(id, lockKeys, dep) => id !in s.used && L.NoDeps(lockKeys) && dep in L.deps
    case DeleteBlock(id, _) => id in s.deleters && s.deleters[id].phase == Asked
    case DeleteCommit(id) => id in s.deleters && s.deleters[id].phase == Blocked
    case OtherLock(id, _, keys) => id !in s.used && L.NoDeps(keys)
    case OtherSet(_, keys, _, _) => L.ItemKeys(keys)
    case OtherRelease(_, _) => true
    case OtherDelete(keys, _, _, _) => L.NoDeps(keys)
    case OtherRegister(dkeys, names) => (forall d :: d in dkeys ==> d in L.deps) && L.NoDeps(names)
    case OtherClear(dep, _, _) => dep in L.deps
    case FlushAll(_) => true
    case Evict(key) => key in s.cache && key !in L.deps
    // A tombstone outlives the delete that set it and every read already answered by the server.
    case Expire(dep) =>
      && dep in L.deps && dep in s.cache && s.cache[dep].Tombstone?
      && (forall id :: id in s.deleters && s.deleters[id].dep == dep ==> s.deleters[id].phase != Blocked)
      && (forall id :: id in s.fills && dep in s.fills[id].deps ==> s.fills[id].phase != Fetched)
  }

  function Apply(L: Layout, s: State, step: Step): State
    requires Enabled(L, s, step) && L.Valid()
  {
    var t := s.(now := s.now + 1);
    match step
    case FillLock(id, col) =>
      t.(used := s.used + {id}, cache := GetValue(s.cache, col, true, id).cache,
         fills := s.fills[id := Fill(col, Locked, [], "", 0)])
    case FillFetch(id, text, deps) =>
      t.(fills := s.fills[id := s.fills[id].(phase := Fetched, deps := deps, text := text, fetchAt := s.now)])
    case FillRegister(id) =>
      // The collection is saved if and only if every list was extended.
      var r := AddDependency(s.cache, s.fills[id].deps, [s.fills[id].col]);
      t.(cache := r.cache, fills := s.fills[id := s.fills[id].(phase := if r.error then Over else Registered)])
    case FillInstall(id) =>
      var f := s.fills[id];
      var r := SetValue(s.cache, f.col, [f.col], f.text, Held(ReadLock, id));
      if r.set_ then t.(cache := r.cache, fills := s.fills[id := f.(phase := Installed)], owner := s.owner[f.col := id])
      else t.(cache := r.cache, fills := s.fills[id := f.(phase := Over)])
    case FillRelease(id) =>
      var f := s.fills[id];
      t.(cache := ReleaseSentinel(s.cache, [f.col], Held(ReadLock, id)),
         fills := s.fills[id := f.(phase := if f.phase == Installed then Installed else Over)])
    case CreateBegin(id, lockKeys, clears) =>
      var r := WriteSentinel(s.cache, Create, lockKeys, id);
      t.(used := s.used + {id}, cache := r.cache, creators := s.creators[id := Creator(r.sentinel.Held?, clears, Creating, 0)])
    case CreateCommit(id) => t.(creators := s.creators[id := s.creators[id].(phase := Committed, commitAt := s.now)])
    case CreateClear(id, more, tombId) =>
      t.(cache := DeleteValue(s.cache, more + s.creators[id].clears, true, true, tombId),
         creators := s.creators[id := s.creators[id].(phase := Cleared)])
    case CreateReturn(id) => t.(creators := s.creators[id := s.creators[id].(phase := Returned)])
    case DeleteBegin(id, lockKeys, dep) =>
      t.(used := s.used + {id}, cache := WriteSentinel(s.cache, Delete, lockKeys, id).cache,
         deleters := s.deleters[id := Deleter(dep, Asked, 0)])
    case DeleteBlock(id, tombId) =>
      t.(cache := ClearDependencies(s.cache, s.deleters[id].dep, true, tombId),
         deleters := s.deleters[id := s.deleters[id].(phase := Blocked)])
    case DeleteCommit(id) => t.(deleters := s.deleters[id := s.deleters[id].(phase := Deleted, commitAt := s.now)])
    case OtherLock(id, stype, keys) => t.(used := s.used + {id}, cache := WriteSentinel(s.cache, stype, keys, id).cache)
    case OtherSet(lkey, keys, text, sent) => t.(cache := SetValue(s.cache, lkey, keys, text, sent).cache)
    case OtherRelease(keys, sent) => t.(cache := ReleaseSentinel(s.cache, keys, sent))
    case OtherDelete(keys, tombstone, force, tombId) => t.(cache := DeleteValue(s.cache, keys, tombstone, force, tombId))
    case OtherRegister(dkeys, names) => t.(cache := AddDependency(s.cache, dkeys, names).cache)
    case OtherClear(dep, tombstone, tombId) => t.(cache := ClearDependencies(s.cache, dep, tombstone, tombId))
    case FlushAll(prefix) => t.(cache := Flush(s.cache, prefix, false))
    case Evict(key) => t.(cache := s.cache - {key})
    case Expire(dep) => t.(cache := s.cache - {dep})
  }

  ghost predicate Legal(L: Layout, s: State, run: seq<Step>)
    requires L.Valid()
    decreases run
  {
    run == [] || (Enabled(L, s, run[0]) && Legal(L, Apply(L, s, run[0]), run[1..]))
  }

  function After(L: Layout, s: State, run: seq<Step>): State
    requires L.Valid() && Legal(L, s, run)
    decreases run
  {
    if run == [] then s else After(L, Apply(L, s, run[0]), run[1..])
  }

  ghost predicate Init(s: State) {
    s.cache == map[] && s.fills == map[] && s.used == {} && s.creators == map[] && s.deleters == map[]
  }

  // ----- The invariant -----

  /** The fill whose lock or value a collection key holds. */
  predicate Occupies(s: State, c: Key, r: Uuid) {
    && r in s.fills && s.fills[r].col == c && c in s.cache
    && match s.fills[r].phase
       case Installed => s.cache[c] == Plain(s.fills[r].text) && c in s.owner && s.owner[c] == r
       case _ => s.cache[c] == LockOf(Held(ReadLock, r))
  }

  ghost predicate DepKeysOk(L: Layout, s: State) {
    forall d :: d in L.deps && d in s.cache ==>
      s.cache[d].Tombstone? || (s.cache[d].Names? && L.NoDeps(s.cache[d].keys))
  }

  /** What a collection key holds came from a fill of that key; only registered fills install. */
  ghost predicate ColOk(s: State, c: Key) {
    c in s.cache ==>
      && !s.cache[c].Names?
      && (s.cache[c].Plain? ==> c in s.owner && Occupies(s, c, s.owner[c]) && s.fills[s.owner[c]].phase == Installed)
      && (s.cache[c].Lock? ==> s.cache[c].id in s.used)
      && (s.cache[c].Lock? && s.cache[c].id in s.fills ==> Occupies(s, c, s.cache[c].id) && s.fills[s.cache[c].id].phase != Installed)
  }

  predicate Listed(s: State, d: Key, c: Key) {
    d in s.cache && s.cache[d].Names? && c in s.cache[d].keys
  }

  predicate HasRegistered(f: Fill) { f.phase == Registered || f.phase == Installed }

  /** A registered fill that still occupies its key is in the list of everything it depends on. */
  ghost predicate FillListed(s: State, r: Uuid)
    requires r in s.fills
  {
    var f := s.fills[r];
    HasRegistered(f) && Occupies(s, f.col, r) ==> forall d :: d in f.deps ==> Listed(s, d, f.col)
  }

  predicate HasFetched(f: Fill) { f.phase == Fetched || HasRegistered(f) }

  /** Whatever is in a key a create cleared was fetched after the create committed. */
  ghost predicate ClearOk(s: State, e: Uuid)
    requires e in s.creators
  {
    var c := s.creators[e];
    c.granted && (c.phase == Cleared || c.phase == Returned) ==>
      forall k, r :: k in c.clears && Occupies(s, k, r) && HasFetched(s.fills[r]) ==> c.commitAt < s.fills[r].fetchAt
  }

  /** A fill that will install nothing: its key is no longer its own, or it has yet to register with
      a list that is tombstoned. */
  ghost predicate Stopped(s: State, r: Uuid)
    requires r in s.fills
  {
    || !Occupies(s, s.fills[r].col, r)
    || (s.fills[r].phase == Fetched && exists y :: y in s.fills[r].deps && y in s.cache && s.cache[y].Tombstone?)
  }

  /** A delete's tombstone stands until the server has deleted, and then every read answered before
      that has been stopped. */
  ghost predicate BlockOk(s: State, e: Uuid)
    requires e in s.deleters
  {
    var d := s.deleters[e];
    && (d.phase == Blocked ==> d.dep in s.cache && s.cache[d.dep].Tombstone?)
    && (d.phase == Deleted ==>
          forall r :: r in s.fills && d.dep in s.fills[r].deps && HasFetched(s.fills[r]) && s.fills[r].fetchAt < d.commitAt ==>
            Stopped(s, r))
  }

  predicate FillOk(L: Layout, s: State, r: Uuid)
    requires r in s.fills
  {
    var f := s.fills[r];
    && r in s.used && f.col in L.cols && f.fetchAt <= s.now
    && (forall d :: d in f.deps ==> d in L.deps)
    && (f.phase == Locked ==> f.deps == [])
  }

  ghost predicate CollectionInv(L: Layout, s: State) {
    && DepKeysOk(L, s)
    && (forall c :: c in L.cols ==> ColOk(s, c))
    && (forall r :: r in s.fills ==> FillOk(L, s, r) && FillListed(s, r))
    && (forall e :: e in s.creators ==> ClearOk(s, e) && (s.creators[e].phase != Creating ==> s.creators[e].commitAt < s.now) && L.NoDeps(s.creators[e].clears))
    && (forall e :: e in s.deleters ==> BlockOk(s, e) && (s.deleters[e].phase == Deleted ==> s.deleters[e].commitAt < s.now) && s.deleters[e].dep in L.deps)
  }
}
