/** What one call to the in-memory provider does to the shared map, as a function of the map
    before the call. The provider runs each call under one mutex, so each function here is one
    atomic step of the protocols. Expiration times are not part of the map: re-arming the timer
    of a key leaves it unchanged. */
module CacheOps {
  import opened Options
  import opened Sentinels

  type Cache = map<Key, Entry>

  function At(m: Cache, k: Key): Option<Entry> {
    if k in m then Some(m[k]) else None
  }

  /** Empty keys stand for "this item type has no such key" and are dropped. */
  function NonEmpty(keys: seq<Key>): (r: seq<Key>)
    ensures forall k :: k in r <==> k in keys && k != ""
  {
    if keys == [] then []
    else
      var last := keys[|keys| - 1];
      NonEmpty(keys[..|keys| - 1]) + if last == "" then [] else [last]
  }

  function SetAll(m: Cache, keys: seq<Key>, e: Entry): Cache {
    m + map k | k in keys :: e
  }

  function DropAll(m: Cache, keys: seq<Key>): Cache {
    m - set k | k in keys
  }

  // ----- Taking a lock -----

  datatype Swept = Swept(cache: Cache, kept: seq<Key>)

  /** Which keys after the first are going to be locked: a tombstone is left alone. A key that
      holds a dependency list is left alone too, except that a mutation re-arms it with the text
      the failed type assertion yields, the empty string. */
  function Sweep(m: Cache, stype: SentinelType, keys: seq<Key>): (r: Swept)
    requires keys != []
    ensures r.kept != [] && r.kept[0] == keys[0]
    ensures forall k :: k in r.kept ==> k in keys
  {
    if |keys| == 1 then Swept(m, keys)
    else
      var before, k := Sweep(m, stype, keys[..|keys| - 1]), keys[|keys| - 1];
      if k !in before.cache || before.cache[k].Plain? || before.cache[k].Lock? then
        before.(kept := before.kept + [k])
      else if stype != Read && before.cache[k].Names? then
        before.(cache := before.cache[k := Plain("")])
      else before
  }

  datatype LockResult = LockResult(cache: Cache, sentinel: Sentinel, error: bool)

  function WriteSentinel(m: Cache, stype: SentinelType, keysIn: seq<Key>, id: Uuid): LockResult {
    var s, keys := Held(KindOf(stype), id), NonEmpty(keysIn);
    if keys == [] then LockResult(m, NoLock, true)
    else if keys[0] in m && IsSentinel(m[keys[0]]) && !CanSetSentinelGivenCurrVal(m[keys[0]], s) then
      LockResult(m, NoLock, false)
    else
      var swept := Sweep(m, stype, keys);
      LockResult(SetAll(swept.cache, swept.kept, LockOf(s)), s, false)
  }

  function ReleaseSentinel(m: Cache, keysIn: seq<Key>, s: Sentinel): Cache {
    map k | k in m && !(k in keysIn && k != "" && s.Held? && m[k] == LockOf(s)) :: m[k]
  }

  // ----- Storing a value under a lock -----

  datatype SetResult = SetResult(cache: Cache, set_: bool, conflict: bool, error: bool)

  function SetValue(m: Cache, lkey: Key, keysIn: seq<Key>, val: string, s: Sentinel): SetResult {
    var keys := NonEmpty(keysIn);
    if keys == [] || lkey == "" then SetResult(m, false, false, true)
    else if lkey !in m || m[lkey].Names? then SetResult(m, false, false, false)
    else match CanSetValue(m[lkey], val, s)
      case SetIt => SetResult(SetAll(m, keys, Plain(val)), true, false, false)
      case ClearIt => SetResult(DropAll(m, keys), false, false, false)
      case ConflictIt =>
        SetResult(SetAll(m, keys, m[lkey].(conflicts := m[lkey].conflicts + [s.id])), false, true, false)
      case Ignore => SetResult(m, false, true, false)
  }

  // ----- Reading -----

  datatype GetResult = GetResult(cache: Cache, value: Option<string>, conflict: Option<Entry>, sentinel: Sentinel)

  function GetValue(m: Cache, key: Key, lockOnMiss: bool, id: Uuid): GetResult
    requires key != ""
  {
    if key !in m then
      if lockOnMiss then
        var s := Held(ReadLock, id);
        GetResult(m[key := LockOf(s)], None, None, s)
      else GetResult(m, None, None, NoLock)
    else match m[key]
      case Names(_) => GetResult(m, None, None, NoLock)
      case Plain(text) => GetResult(m, Some(text), None, NoLock)
      case Lock(_, _, _) => GetResult(m, None, Some(m[key]), NoLock)
      case Tombstone(_) => GetResult(m, None, Some(m[key]), NoLock)
  }

  // ----- Deleting -----

  function Targets(m: Cache, keys: seq<Key>, force: bool): set<Key> {
    set k | k in keys && k != "" && (force || (k in m && !IsSentinel(m[k])))
  }

  function DeleteValue(m: Cache, keysIn: seq<Key>, setTombstone: bool, force: bool, id: Uuid): Cache {
    var targets := Targets(m, keysIn, force);
    if setTombstone then m + map k | k in targets :: Tombstone(id)
    else m - targets
  }

  function Flush(m: Cache, prefix: string, flushTombstones: bool): Cache {
    map k | k in m && !(HasPrefix(k, prefix) && !m[k].Names? && (!m[k].Tombstone? || flushTombstones)) :: m[k]
  }

  // ----- Dependency lists -----

  function Unique(keys: seq<Key>): (r: seq<Key>)
    ensures forall k :: k in r <==> k in keys
  {
    if keys == [] then []
    else
      var rest, last := Unique(keys[..|keys| - 1]), keys[|keys| - 1];
      if last in keys[..|keys| - 1] then rest else rest + [last]
  }

  function Present(m: Cache, keys: seq<Key>): (r: seq<Key>)
    ensures forall k :: k in r <==> k in keys && k in m
  {
    if keys == [] then []
    else
      var last := keys[|keys| - 1];
      Present(m, keys[..|keys| - 1]) + if last in m then [last] else []
  }

  /** The list stored under dkey once names are added: names first, then the old members that
      are still in the cache, without duplicates. */
  function Merged(m: Cache, dkey: Key, names: seq<Key>): seq<Key> {
    Unique(names + if dkey in m && m[dkey].Names? then Present(m, m[dkey].keys) else [])
  }

  datatype AddResult = AddResult(cache: Cache, error: bool)

  /** Lists are extended in order up to the first tombstoned one, which fails the call and
      leaves the lists before it extended. */
  function AddAll(m: Cache, dkeys: seq<Key>, names: seq<Key>): AddResult {
    if dkeys == [] then AddResult(m, false)
    else
      var before, dkey := AddAll(m, dkeys[..|dkeys| - 1], names), dkeys[|dkeys| - 1];
      if before.error || (dkey in before.cache && before.cache[dkey].Tombstone?) then before.(error := true)
      else AddResult(before.cache[dkey := Names(Merged(before.cache, dkey, names))], false)
  }

  function AddDependency(m: Cache, dkeys: seq<Key>, names: seq<Key>): AddResult {
    AddAll(m, NonEmpty(dkeys), NonEmpty(names))
  }

  function ClearDependencies(m: Cache, key: Key, setTombstone: bool, id: Uuid): Cache {
    var cleared := if key in m && m[key].Names? then DropAll(m, m[key].keys) else m;
    if setTombstone then cleared[key := Tombstone(id)]
    else if key in m && m[key].Tombstone? then cleared
    else cleared - {key}
  }
}
