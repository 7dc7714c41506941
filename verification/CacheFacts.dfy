/** Every provider call, key by key: what each key holds afterwards and what the call answers, in
    terms of what the keys held before and of nothing else. */
module CacheFacts {
  import opened Options
  import opened Sentinels
  import Ops = CacheOps
  import opened CacheOps
  import opened SlotOps

  predicate SomeKey(keys: seq<Key>) { exists k :: k in keys && k != "" }

  lemma NoKeys(keys: seq<Key>)
    ensures NonEmpty(keys) != [] <==> SomeKey(keys)
  {
    if NonEmpty(keys) != [] { assert NonEmpty(keys)[0] in NonEmpty(keys); }
  }

  // ----- Reading -----

  /** A hit is a plain value and answers with its text; a miss takes a read lock if asked to; anything
      else is reported, and only a miss changes the cache. */
  lemma GetFacts(m: Cache, key: Key, lockOnMiss: bool, id: Uuid, k: Key)
    requires key != ""
    ensures var r := Ops.GetValue(m, key, lockOnMiss, id);
      && (r.value.Some? <==> key in m && m[key].Plain?) && (r.value.Some? ==> r.value.value == m[key].text)
      && (r.conflict.Some? <==> key in m && (m[key].Lock? || m[key].Tombstone?)) && (r.conflict.Some? ==> r.conflict.value == m[key])
      && r.sentinel == (if key !in m && lockOnMiss then Held(ReadLock, id) else NoLock)
      && At(r.cache, k) == if k == key && key !in m && lockOnMiss then Some(Lock(ReadLock, id, [])) else At(m, k)
  {
  }

  // ----- Storing -----

  /** Who owns the lock key decides: its owner stores the value everywhere; a writer that finds another
      value there, or its own lock upgraded, empties every key; a writer that finds another writer's
      lock upgrades it, everywhere; anyone else changes nothing. */
  lemma SetFacts(m: Cache, lkey: Key, keys: seq<Key>, val: string, s: Sentinel, k: Key)
    ensures var r := Ops.SetValue(m, lkey, keys, val, s);
      var callable := SomeKey(keys) && lkey != "";
      var own := lkey in m && (if s.Held? then m[lkey] == Lock(s.kind, s.id, []) else m[lkey] == Plain(""));
      var writer := lkey in m && s.Held? && s.kind == WriteLock;
      var other := writer && ((m[lkey].Plain? && m[lkey].text != val)
                              || (m[lkey].Lock? && m[lkey].kind == WriteLock && m[lkey].id == s.id && m[lkey].conflicts != []));
      var theirs := writer && m[lkey].Lock? && m[lkey].kind == WriteLock && m[lkey].id != s.id;
      && r.error == !callable
      && r.set_ == (callable && own)
      && r.conflict == (callable && lkey in m && !m[lkey].Names? && !own && !other)
      && At(r.cache, k) ==
         if !callable || k !in keys || k == "" then At(m, k)
         else if own then Some(Plain(val))
         else if other then None
         else if theirs then Some(Lock(WriteLock, m[lkey].id, m[lkey].conflicts + [s.id]))
         else At(m, k)
  {
    NoKeys(keys);
  }

  // ----- Letting go and deleting -----

  lemma ReleaseFacts(m: Cache, keys: seq<Key>, s: Sentinel, k: Key)
    ensures At(Ops.ReleaseSentinel(m, keys, s), k) ==
            if k in keys && k != "" && s.Held? && At(m, k) == Some(Lock(s.kind, s.id, [])) then None else At(m, k)
  {
  }

  /** Without force, locks and tombstones stay. */
  lemma DeleteFacts(m: Cache, keys: seq<Key>, tombstone: bool, force: bool, id: Uuid, k: Key)
    ensures At(Ops.DeleteValue(m, keys, tombstone, force, id), k) ==
            if k in keys && k != "" && (force || (k in m && !m[k].Lock? && !m[k].Tombstone?))
            then if tombstone then Some(Tombstone(id)) else None
            else At(m, k)
  {
  }

  lemma FlushFacts(m: Cache, prefix: string, tombstonesToo: bool, k: Key)
    ensures At(Ops.Flush(m, prefix, tombstonesToo), k) ==
            if prefix <= k && k in m && (m[k].Plain? || m[k].Lock? || (m[k].Tombstone? && tombstonesToo)) then None else At(m, k)
  {
  }

  // ----- Lists -----

  predicate Listed(m: Cache, d: Key, k: Key) { d in m && m[d].Names? && k in m[d].keys }

  /** What the list names is gone; the list is tombstoned if asked to, and removed otherwise unless
      it was a tombstone. */
  lemma ClearFacts(m: Cache, d: Key, tombstone: bool, id: Uuid, k: Key)
    ensures At(Ops.ClearDependencies(m, d, tombstone, id), k) ==
            if k == d then if tombstone then Some(Tombstone(id)) else if d in m && m[d].Tombstone? then At(m, d) else None
            else if Listed(m, d, k) then None
            else At(m, k)
  {
  }

  /** Extending lists fails exactly on a tombstone. Otherwise each of them then names what was to be
      added and those it named before that are still in the cache, and nothing else changes. */
  lemma AddFacts(m: Cache, dkeys: seq<Key>, names: seq<Key>, d: Key, k: Key)
    ensures var r := Ops.AddDependency(m, dkeys, names);
      && (r.error <==> exists x :: x in dkeys && x != "" && x in m && m[x].Tombstone?)
      && (d !in dkeys || d == "" ==> At(r.cache, d) == At(m, d))
      && (!r.error && d in dkeys && d != "" ==>
            && d in r.cache && r.cache[d].Names?
            && (k in names && k != "" ==> Listed(r.cache, d, k))
            && (k in m && Listed(m, d, k) ==> Listed(r.cache, d, k))
            && (Listed(r.cache, d, k) ==> (k in names && k != "") || (Listed(m, d, k) && k in r.cache)))
  {
    AddAllFacts(m, NonEmpty(dkeys), NonEmpty(names));
  }

  ghost predicate Extended(m: Cache, n: Cache, dkeys: seq<Key>, names: seq<Key>) {
    && (forall d :: d !in dkeys ==> At(n, d) == At(m, d))
    && (forall k :: k in m ==> k in n)
    && (forall d :: d in dkeys ==> d in n && n[d].Names?)
    && (forall d, k :: d in dkeys && k in names ==> Listed(n, d, k))
    && (forall d, k :: k in m && Listed(m, d, k) ==> Listed(n, d, k))
    && (forall d, k :: d in dkeys && Listed(n, d, k) ==> k in names || (Listed(m, d, k) && k in n))
  }

  lemma {:induction false} AddAllFacts(m: Cache, dkeys: seq<Key>, names: seq<Key>)
    ensures var r := AddAll(m, dkeys, names);
      && (r.error <==> exists x :: x in dkeys && x in m && m[x].Tombstone?)
      && (forall d :: d !in dkeys ==> At(r.cache, d) == At(m, d))
      && (!r.error ==> Extended(m, r.cache, dkeys, names))
    decreases |dkeys|
  {
    if dkeys != [] {
      var init, d := dkeys[..|dkeys| - 1], dkeys[|dkeys| - 1];
      assert dkeys == init + [d];
      AddAllFacts(m, init, names);
      var before := AddAll(m, init, names);
      if !before.error {
        assert Extended(m, before.cache, init, names);
        assert At(before.cache, d) == At(m, d) || d in init;
        if !(d in before.cache && before.cache[d].Tombstone?) { OneMore(m, before.cache, init, d, names); }
      }
    }
  }

  lemma OneMore(m: Cache, before: Cache, dkeys: seq<Key>, d: Key, names: seq<Key>)
    requires Extended(m, before, dkeys, names) && !(d in before && before[d].Tombstone?)
    ensures Extended(m, before[d := Names(Merged(before, d, names))], dkeys + [d], names)
  {
    MergedFacts(before, d, names);
    hide Merged;
    var n := before[d := Names(Merged(before, d, names))];
    forall x, k | x in dkeys + [d] && Listed(n, x, k) ensures k in names || (Listed(m, x, k) && k in n) {
      if x == d && k !in names { assert Listed(before, d, k); }
    }
    forall x, k | k in m && Listed(m, x, k) ensures Listed(n, x, k) { assert Listed(before, x, k); }
    forall x, k | x in dkeys + [d] && k in names ensures Listed(n, x, k) {
      if x != d { assert Listed(before, x, k); }
    }
  }

  lemma MergedFacts(m: Cache, d: Key, names: seq<Key>)
    ensures forall k :: k in Merged(m, d, names) <==> k in names || (Listed(m, d, k) && k in m)
  {
  }

  // ----- Taking a lock -----

  /** The first key that is not empty. */
  predicate Leads(keys: seq<Key>, i: nat) { i < |keys| && keys[i] != "" && forall j :: 0 <= j < i ==> keys[j] == "" }

  lemma {:induction false} LeadsOthers(keys: seq<Key>, i: nat)
    requires Leads(keys, i)
    ensures NonEmpty(keys) != [] && NonEmpty(keys)[0] == keys[i]
    decreases |keys|
  {
    var front := keys[..|keys| - 1];
    if i < |front| {
      LeadsOthers(front, i);
    } else {
      assert !SomeKey(front);
      NoKeys(front);
    }
  }

  /** Without a key there is an error. The first key decides: a sentinel on it refuses a read, and a
      delete's lock refuses everyone; then nothing changes. Otherwise the first key is locked whatever
      it held, and so are the others, except that a tombstone stays. */
  lemma LockFacts(m: Cache, stype: SentinelType, keys: seq<Key>, id: Uuid, i: nat, k: Key)
    requires Leads(keys, i) && (k in m ==> !m[k].Names?)
    ensures var r, first := Ops.WriteSentinel(m, stype, keys, id), keys[i];
      var kind := match stype case Read => ReadLock case Delete => DeleteLock case _ => WriteLock;
      var refused := first in m && (m[first].Lock? || m[first].Tombstone?)
                     && (stype == Read || (m[first].Lock? && m[first].kind == DeleteLock));
      && !r.error && r.sentinel == (if refused then NoLock else Held(kind, id))
      && At(r.cache, k) ==
         if refused then At(m, k)
         else if k == first then Some(Lock(kind, id, []))
         else if k !in keys || k == "" || (k in m && m[k].Tombstone?) then At(m, k)
         else Some(Lock(kind, id, []))
  {
    LeadsOthers(keys, i);
    WriteSentinelAt(m, stype, keys, id, k);
    hide Sweep, NonEmpty, SetAll;
  }

  lemma LockNeedsKey(m: Cache, stype: SentinelType, keys: seq<Key>, id: Uuid)
    requires !SomeKey(keys)
    ensures Ops.WriteSentinel(m, stype, keys, id) == LockResult(m, NoLock, true)
  {
    NoKeys(keys);
  }

  /** A dependency list among the keys to lock: a read leaves it, a mutation empties it into the text
      "", which is a value like any other when the key comes again. */
  lemma {:induction false} SweepList(m: Cache, stype: SentinelType, keys: seq<Key>, k: Key)
    requires keys != [] && k in m && m[k].Names? && k != keys[0]
    ensures var r, times := Sweep(m, stype, keys), multiset(keys)[k];
      && At(r.cache, k) == (if stype == Read || times == 0 then Some(m[k]) else Some(Plain("")))
      && (k in r.kept <==> stype != Read && times >= 2)
  {
    if |keys| > 1 {
      var n := |keys| - 1;
      assert keys == keys[..n] + [keys[n]];
      SweepList(m, stype, keys[..n], k);
    }
  }

  lemma {:induction false} TimesNonEmpty(keys: seq<Key>, k: Key)
    requires k != ""
    ensures multiset(NonEmpty(keys))[k] == multiset(keys)[k]
  {
    if keys != [] {
      var n := |keys| - 1;
      assert keys == keys[..n] + [keys[n]];
      TimesNonEmpty(keys[..n], k);
    }
  }

  lemma LockLeavesList(m: Cache, stype: SentinelType, keys: seq<Key>, id: Uuid, i: nat, k: Key)
    requires Leads(keys, i) && k in m && m[k].Names? && k != "" && k != keys[i]
    ensures var r, times := Ops.WriteSentinel(m, stype, keys, id), multiset(keys)[k];
      r.sentinel.Held? ==>
        At(r.cache, k) == if stype == Read || times == 0 then Some(m[k])
                          else if times == 1 then Some(Plain(""))
                          else Some(LockOf(r.sentinel))
  {
    LeadsOthers(keys, i);
    TimesNonEmpty(keys, k);
    SweepList(m, stype, NonEmpty(keys), k);
    hide Sweep, NonEmpty;
  }
}
