/** The in-memory provider as a class: one map, changed key by key in loops. Every method is
    proved to have exactly the effect its function in CacheOps describes. */
module InMemory {
  import opened Options
  import opened Sentinels
  import Ops = CacheOps
  import opened CacheOps

  class InMemoryClientCacheProvider {
    var cache: map<Key, Entry>

    constructor ()
      ensures cache == map[]
    {
      cache := map[];
    }

    method InMemMultiSet(keys: seq<Key>, e: Entry)
      modifies this
      ensures cache == SetAll(old(cache), keys, e)
    {
      for i := 0 to |keys|
        invariant cache == SetAll(old(cache), keys[..i], e)
      {
        SetAllStep(old(cache), keys, i, e);
        cache := cache[keys[i] := e];
      }
      assert keys[..|keys|] == keys;
    }

    method InMemMultiDelete(keys: seq<Key>)
      modifies this
      ensures cache == DropAll(old(cache), keys)
    {
      for i := 0 to |keys|
        invariant cache == DropAll(old(cache), keys[..i])
      {
        cache := cache - {keys[i]};
      }
    }

    method GetStringKeysFromCacheKeys(keys: seq<Key>) returns (strKeys: seq<Key>)
      ensures strKeys == NonEmpty(keys)
    {
      strKeys := [];
      for i := 0 to |keys|
        invariant strKeys == NonEmpty(keys[..i])
      {
        assert keys[..i + 1][..i] == keys[..i];
        if keys[i] != "" { strKeys := strKeys + [keys[i]]; }
      }
      assert keys[..|keys|] == keys;
    }

    method WriteSentinel(stype: SentinelType, keysIn: seq<Key>, id: Uuid) returns (s: Sentinel, error: bool)
      modifies this
      ensures LockResult(cache, s, error) == Ops.WriteSentinel(old(cache), stype, keysIn, id)
    {
      var sentinel := Held(KindOf(stype), id);
      var keys := GetStringKeysFromCacheKeys(keysIn);
      if keys == [] { return NoLock, true; }
      if keys[0] in cache && IsSentinel(cache[keys[0]]) && !CanSetSentinelGivenCurrVal(cache[keys[0]], sentinel) {
        return NoLock, false;
      }
      // Never overwrite a tombstone: it keeps the key locked for the reads it has to stop.
      var newKeys := [keys[0]];
      for i := 1 to |keys|
        invariant Swept(cache, newKeys) == Sweep(old(cache), stype, keys[..i])
      {
        assert keys[..i + 1][..i] == keys[..i];
        var k := keys[i];
        if k !in cache || cache[k].Plain? || cache[k].Lock? {
          newKeys := newKeys + [k];
        } else if stype != Read && cache[k].Names? {
          cache := cache[k := Plain("")];
        }
      }
      assert keys[..|keys|] == keys;
      InMemMultiSet(newKeys, LockOf(sentinel));
      return sentinel, false;
    }

    method ReleaseSentinel(keysIn: seq<Key>, s: Sentinel)
      modifies this
      ensures cache == Ops.ReleaseSentinel(old(cache), keysIn, s)
    {
      var keys := GetStringKeysFromCacheKeys(keysIn);
      var keysToClear := [];
      for i := 0 to |keys|
        invariant forall k :: k in keysToClear <==> k in keys[..i] && k in cache && s.Held? && cache[k] == LockOf(s)
      {
        if keys[i] in cache && s.Held? && cache[keys[i]] == LockOf(s) {
          keysToClear := keysToClear + [keys[i]];
        }
      }
      InMemMultiDelete(keysToClear);
      ReleaseKeeps(old(cache), keysIn, keysToClear, s);
    }

    method SetValue(lkey: Key, keysToSet: seq<Key>, val: string, s: Sentinel)
      returns (set_: bool, conflict: bool, error: bool)
      modifies this
      ensures SetResult(cache, set_, conflict, error) == Ops.SetValue(old(cache), lkey, keysToSet, val, s)
    {
      var keys := GetStringKeysFromCacheKeys(keysToSet);
      if keys == [] || lkey == "" { return false, false, true; }
      if lkey in cache && !cache[lkey].Names? {
        match CanSetValue(cache[lkey], val, s)
        case SetIt =>
          InMemMultiSet(keys, Plain(val));
          return true, false, false;
        case ClearIt =>
          InMemMultiDelete(keys);
          return false, false, false;
        case ConflictIt =>
          InMemMultiSet(keys, cache[lkey].(conflicts := cache[lkey].conflicts + [s.id]));
          return false, true, false;
        case Ignore =>
          return false, true, false;
      }
      return false, false, false;
    }

    method GetValue(key: Key, lockOnMiss: bool, id: Uuid)
      returns (value: Option<string>, conflict: Option<Entry>, s: Sentinel)
      requires key != ""
      modifies this
      ensures GetResult(cache, value, conflict, s) == Ops.GetValue(old(cache), key, lockOnMiss, id)
    {
      if key !in cache {
        if lockOnMiss {
          s := Held(ReadLock, id);
          InMemMultiSet([key], LockOf(s));
          return None, None, s;
        }
        return None, None, NoLock;
      }
      match cache[key]
      case Names(_) => return None, None, NoLock;
      case Plain(text) => return Some(text), None, NoLock;
      case Lock(_, _, _) => return None, Some(cache[key]), NoLock;
      case Tombstone(_) => return None, Some(cache[key]), NoLock;
    }

    method DeleteValue(keysIn: seq<Key>, setTombstone: bool, force: bool, id: Uuid)
      modifies this
      ensures cache == Ops.DeleteValue(old(cache), keysIn, setTombstone, force, id)
    {
      var keys := GetStringKeysFromCacheKeys(keysIn);
      if force {
        if setTombstone { InMemMultiSet(keys, Tombstone(id)); } else { InMemMultiDelete(keys); }
        return;
      }
      DeleteUnlocked(keys, setTombstone, id);
      assert Targets(old(cache), keys, false) == Targets(old(cache), keysIn, false);
    }

    /** Only keys without a lock or a tombstone. */
    method DeleteUnlocked(keys: seq<Key>, setTombstone: bool, id: Uuid)
      requires "" !in keys
      modifies this
      ensures cache == Ops.DeleteValue(old(cache), keys, setTombstone, false, id)
    {
      DeleteNothing(cache, setTombstone, id);
      hide Ops.DeleteValue;
      assert keys[..0] == [];
      for i := 0 to |keys|
        invariant cache == Ops.DeleteValue(old(cache), keys[..i], setTombstone, false, id)
      {
        var k := keys[i];
        assert k in keys;
        DeleteValueStep(old(cache), keys, i, setTombstone, id);
        if k in cache && !IsSentinel(cache[k]) {
          cache := if setTombstone then cache[k := Tombstone(id)] else cache - {k};
        }
      }
      assert keys[..|keys|] == keys;
    }

    method SaveKeyArray(dkeys: seq<Key>, newKeys: seq<Key>) returns (error: bool)
      modifies this
      ensures AddResult(cache, error) == AddAll(old(cache), dkeys, newKeys)
    {
      hide Ops.Present, Ops.Unique;
      for n := 0 to |dkeys|
        invariant AddResult(cache, false) == AddAll(old(cache), dkeys[..n], newKeys)
      {
        var dkey := dkeys[n];
        assert dkeys[..n + 1][..n] == dkeys[..n];
        if dkey in cache && cache[dkey].Tombstone? {
          AddAllStaysFailed(old(cache), dkeys, n + 1, newKeys);
          return true;
        }
        var keyToSet := newKeys;
        if dkey in cache && cache[dkey].Names? {
          var kept := StillPresent(cache[dkey].keys);
          keyToSet := keyToSet + kept;
        } else {
          assert newKeys == newKeys + [];
        }
        var unique := RemoveDuplicates(keyToSet);
        cache := cache[dkey := Names(unique)];
      }
      assert dkeys[..|dkeys|] == dkeys;
      return false;
    }

    method StillPresent(keys: seq<Key>) returns (kept: seq<Key>)
      ensures kept == Ops.Present(cache, keys)
    {
      kept := [];
      for i := 0 to |keys|
        invariant kept == Ops.Present(cache, keys[..i])
      {
        assert keys[..i + 1][..i] == keys[..i];
        if keys[i] in cache { kept := kept + [keys[i]]; }
      }
      assert keys[..|keys|] == keys;
    }

    method RemoveDuplicates(keys: seq<Key>) returns (unique: seq<Key>)
      ensures unique == Ops.Unique(keys)
      ensures forall i, j :: 0 <= i < j < |unique| ==> unique[i] != unique[j]
    {
      unique := [];
      for i := 0 to |keys|
        invariant unique == Ops.Unique(keys[..i])
        invariant forall i, j :: 0 <= i < j < |unique| ==> unique[i] != unique[j]
      {
        assert keys[..i + 1][..i] == keys[..i];
        if keys[i] !in unique { unique := unique + [keys[i]]; }
      }
      assert keys[..|keys|] == keys;
    }

    method DeleteKeyArray(dkey: Key, setTombstone: bool, id: Uuid)
      modifies this
      ensures cache == Ops.ClearDependencies(old(cache), dkey, setTombstone, id)
    {
      var isTombstone := false;
      if dkey in cache {
        if cache[dkey].Names? {
          InMemMultiDelete(cache[dkey].keys);
        } else {
          isTombstone := cache[dkey].Tombstone?;
        }
      }
      if setTombstone {
        cache := cache[dkey := Tombstone(id)];
      } else if !isTombstone {
        cache := cache - {dkey};
      }
    }

    method AddDependency(keysIn: seq<Key>, values: seq<Key>) returns (error: bool)
      modifies this
      ensures AddResult(cache, error) == Ops.AddDependency(old(cache), keysIn, values)
    {
      var keys := GetStringKeysFromCacheKeys(keysIn);
      var names := GetStringKeysFromCacheKeys(values);
      error := SaveKeyArray(keys, names);
    }

    method ClearDependencies(key: Key, setTombstone: bool, id: Uuid) returns (error: bool)
      modifies this
      ensures error <==> key == ""
      ensures cache == if error then old(cache) else Ops.ClearDependencies(old(cache), key, setTombstone, id)
    {
      if key == "" { return true; }
      DeleteKeyArray(key, setTombstone, id);
      return false;
    }

    method Flush(prefix: string, flushTombstones: bool)
      modifies this
      ensures cache == Ops.Flush(old(cache), prefix, flushTombstones)
    {
      var items := cache;
      while items != map[]
        invariant forall k :: k in items ==> k in cache && cache[k] == items[k] && k in old(cache)
        invariant forall k :: k in cache ==> k in old(cache) && cache[k] == old(cache)[k]
        invariant forall k :: k in old(cache) && k !in items ==>
          (k in cache <==> k in Ops.Flush(old(cache), prefix, flushTombstones))
        decreases |items|
      {
        var k :| k in items;
        if HasPrefix(k, prefix) && !items[k].Names? && (!items[k].Tombstone? || flushTombstones) {
          cache := cache - {k};
        }
        items := items - {k};
      }
    }
  }

  lemma SetAllStep(m: Cache, keys: seq<Key>, i: nat, e: Entry)
    requires i < |keys|
    ensures SetAll(m, keys[..i + 1], e) == SetAll(m, keys[..i], e)[keys[i] := e]
  {
    var a, b := SetAll(m, keys[..i + 1], e), SetAll(m, keys[..i], e)[keys[i] := e];
    assert forall k :: k in keys[..i + 1] <==> k in keys[..i] || k == keys[i];
    assert a.Keys == b.Keys;
  }

  /** Deleting unlocked keys one after the other: a key met twice is found locked or gone. */
  lemma ReleaseKeeps(m: Cache, keysIn: seq<Key>, cleared: seq<Key>, s: Sentinel)
    requires forall k :: k in cleared <==> k in NonEmpty(keysIn) && k in m && s.Held? && m[k] == LockOf(s)
    ensures DropAll(m, cleared) == Ops.ReleaseSentinel(m, keysIn, s)
  {
    var dropped, released := DropAll(m, cleared), Ops.ReleaseSentinel(m, keysIn, s);
    assert forall k :: k in dropped <==> k in m && k !in cleared;
    assert forall k :: k in released <==> k in m && k !in cleared;
  }

  lemma DeleteNothing(m: Cache, setTombstone: bool, id: Uuid)
    ensures Ops.DeleteValue(m, [], setTombstone, false, id) == m
  {
    assert Targets(m, [], false) == {};
  }

  lemma DeleteValueStep(m: Cache, keys: seq<Key>, i: nat, setTombstone: bool, id: Uuid)
    requires i < |keys| && keys[i] != ""
    ensures var before := Ops.DeleteValue(m, keys[..i], setTombstone, false, id);
      Ops.DeleteValue(m, keys[..i + 1], setTombstone, false, id) ==
      if keys[i] in before && !IsSentinel(before[keys[i]]) then
        if setTombstone then before[keys[i] := Tombstone(id)] else before - {keys[i]}
      else before
  {
    var k := keys[i];
    assert forall x :: x in keys[..i + 1] <==> x in keys[..i] || x == k;
    var T0, T1 := Targets(m, keys[..i], false), Targets(m, keys[..i + 1], false);
    assert T1 == T0 + if k in m && !IsSentinel(m[k]) then {k} else {};
  }

  lemma {:induction false} AddAllStaysFailed(m: Cache, dkeys: seq<Key>, n: nat, names: seq<Key>)
    requires n <= |dkeys| && AddAll(m, dkeys[..n], names).error
    ensures AddAll(m, dkeys, names) == AddAll(m, dkeys[..n], names)
    decreases |dkeys|
  {
    if n < |dkeys| {
      assert dkeys[..|dkeys| - 1][..n] == dkeys[..n];
      AddAllStaysFailed(m, dkeys[..|dkeys| - 1], n, names);
    } else {
      assert dkeys[..n] == dkeys;
    }
  }
}
