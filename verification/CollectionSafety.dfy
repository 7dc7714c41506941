/** Dependency safety and read-after-write for cached collections, over every run. */
module CollectionSafety {
  import opened Options
  import opened Sentinels
  import opened CacheOps
  import opened SlotOps
  import opened CollectionProtocol

  // ----- Steps that register and install nothing -----

  /** The dependency lists are as they were, and a collection key is as it was, or emptied,
      tombstoned, or locked by an operation that is not a fill. */
  ghost predicate Disturbs(L: Layout, s: State, t: State) {
    && t.fills == s.fills && t.owner == s.owner && s.used <= t.used && s.now <= t.now
    && (forall d :: d in L.deps ==> At(t.cache, d) == At(s.cache, d))
    && (forall c :: c in L.cols ==>
          || At(t.cache, c) == At(s.cache, c)
          || c !in t.cache || t.cache[c].Tombstone?
          || (t.cache[c].Lock? && t.cache[c].id !in s.fills && t.cache[c].id in t.used))
  }

  lemma DisturbedKeeps(L: Layout, s: State, t: State)
    requires L.Valid() && CollectionInv(L, s) && Disturbs(L, s, t)
    ensures DepKeysOk(L, t)
    ensures forall c :: c in L.cols ==> ColOk(t, c)
    ensures forall c, r :: c in L.cols && Occupies(t, c, r) ==> Occupies(s, c, r)
    ensures forall r :: r in t.fills ==> FillOk(L, t, r) && FillListed(t, r)
  {
    forall c | c in L.cols ensures ColOk(t, c) { assert ColOk(s, c); }
    forall c, r | c in L.cols && Occupies(t, c, r) ensures Occupies(s, c, r) { assert ColOk(s, c); }
    forall r | r in t.fills ensures FillOk(L, t, r) && FillListed(t, r) {
      assert FillOk(L, s, r) && FillListed(s, r);
      var f := t.fills[r];
      if HasRegistered(f) && Occupies(t, f.col, r) {
        assert Occupies(s, f.col, r);
        forall d | d in f.deps ensures Listed(t, d, f.col) { assert Listed(s, d, f.col); }
      }
    }
  }

  // ----- Stopped reads stay stopped -----

  predicate Tombstoned(s: State, d: Key) { d in s.cache && s.cache[d].Tombstone? }

  /** What a step may do to a read that has been answered: register it if none of its lists is
      tombstoned, move it on, take its key away; its lists keep their tombstones while it waits. */
  ghost predicate Follows(s: State, t: State, r: Uuid) {
    && r in s.fills && r in t.fills
    && t.fills[r].col == s.fills[r].col && t.fills[r].deps == s.fills[r].deps && t.fills[r].fetchAt == s.fills[r].fetchAt
    && HasFetched(s.fills[r]) && (t.fills[r].phase == Fetched ==> s.fills[r].phase == Fetched)
    && (Occupies(t, s.fills[r].col, r) ==> Occupies(s, s.fills[r].col, r))
    && (s.fills[r].phase == Fetched ==>
          forall y :: y in s.fills[r].deps && Tombstoned(s, y) ==> t.fills[r].phase == Fetched && Tombstoned(t, y))
  }

  lemma BlockKept(s: State, t: State, e: Uuid)
    requires e in s.deleters && e in t.deleters && t.deleters[e] == s.deleters[e] && BlockOk(s, e)
    requires s.deleters[e].phase == Blocked && Tombstoned(s, s.deleters[e].dep) ==> Tombstoned(t, s.deleters[e].dep)
    requires s.deleters[e].phase == Deleted ==>
      forall r :: r in t.fills && HasFetched(t.fills[r]) && t.fills[r].fetchAt < s.deleters[e].commitAt ==> Follows(s, t, r)
    ensures BlockOk(t, e)
  {
    hide Occupies;
    var d := t.deleters[e];
    if d.phase == Deleted {
      forall r | r in t.fills && d.dep in t.fills[r].deps && HasFetched(t.fills[r]) && t.fills[r].fetchAt < d.commitAt
        ensures Stopped(t, r)
      {
        assert Follows(s, t, r) && Stopped(s, r);
        if Occupies(t, t.fills[r].col, r) {
          var y :| y in s.fills[r].deps && y in s.cache && s.cache[y].Tombstone?;
          assert Tombstoned(s, y) && Tombstoned(t, y);
        }
      }
    }
  }

  lemma DisturbedHistory(L: Layout, s: State, t: State, e: Uuid)
    requires L.Valid() && CollectionInv(L, s) && Disturbs(L, s, t)
    ensures e in s.creators && e in t.creators && t.creators[e] == s.creators[e] ==> ClearOk(t, e)
    ensures e in s.deleters && e in t.deleters && t.deleters[e] == s.deleters[e] ==> BlockOk(t, e)
  {
    DisturbedKeeps(L, s, t);
    assert forall r :: r in s.fills ==> FillOk(L, s, r);
    if e in s.creators && e in t.creators && t.creators[e] == s.creators[e] {
      assert ClearOk(s, e);
      forall k, r | k in t.creators[e].clears && Occupies(t, k, r) ensures Occupies(s, k, r) {
        assert FillOk(L, s, r);
      }
    }
    if e in s.deleters && e in t.deleters && t.deleters[e] == s.deleters[e] {
      assert BlockOk(s, e);
    }
  }

  lemma LockDisturbs(L: Layout, s: State, stype: SentinelType, keys: seq<Key>, id: Uuid, t: State)
    requires L.Valid() && CollectionInv(L, s) && id !in s.used && L.NoDeps(keys)
    requires t.cache == WriteSentinel(s.cache, stype, keys, id).cache
    requires t.fills == s.fills && t.owner == s.owner && t.used == s.used + {id} && s.now <= t.now
    ensures Disturbs(L, s, t)
  {
    assert forall r :: r in s.fills ==> FillOk(L, s, r);
    forall d | d in L.deps ensures At(t.cache, d) == At(s.cache, d) {
      LockLeavesOthers(s.cache, stype, keys, id, d);
    }
    forall c | c in L.cols
      ensures At(t.cache, c) == At(s.cache, c) || (c in t.cache && t.cache[c].Lock? && t.cache[c].id == id)
    {
      assert ColOk(s, c);
      WriteSentinelAt(s.cache, stype, keys, id, c);
    }
  }

  /** A key that is not among those to lock is untouched, whatever it holds. */
  lemma LockLeavesOthers(m: Cache, stype: SentinelType, keysIn: seq<Key>, id: Uuid, k: Key)
    requires k !in keysIn
    ensures At(WriteSentinel(m, stype, keysIn, id).cache, k) == At(m, k)
  {
    var keys := NonEmpty(keysIn);
    if keys != [] { SweepLeavesOthers(m, stype, keys, k); }
  }

  lemma {:induction false} SweepLeavesOthers(m: Cache, stype: SentinelType, keys: seq<Key>, k: Key)
    requires keys != [] && k !in keys
    ensures At(Sweep(m, stype, keys).cache, k) == At(m, k)
    decreases |keys|
  {
    if |keys| > 1 { SweepLeavesOthers(m, stype, keys[..|keys| - 1], k); }
  }

  lemma OtherDisturbs(L: Layout, s: State, step: Step)
    requires L.Valid() && CollectionInv(L, s) && Enabled(L, s, step)
    requires step.OtherLock? || step.OtherSet? || step.OtherRelease? || step.OtherDelete? || step.FlushAll? || step.Evict?
    ensures Disturbs(L, s, Apply(L, s, step))
  {
    hide ColOk, FillOk, FillListed, ClearOk, BlockOk, WriteSentinel, SetValue, AddDependency, ClearDependencies, GetValue;
    var t := Apply(L, s, step);
    if step.OtherLock? { LockDisturbs(L, s, step.stype, step.keys, step.id, t); }
    if step.OtherSet? { SetDisturbs(L, s, step.lkey, step.keys, step.text, step.s, t); }
  }

  lemma SetDisturbs(L: Layout, s: State, lkey: Key, keys: seq<Key>, text: string, sent: Sentinel, t: State)
    requires L.Valid() && L.ItemKeys(keys)
    requires t == s.(now := s.now + 1, cache := SetValue(s.cache, lkey, keys, text, sent).cache)
    ensures Disturbs(L, s, t)
  {
    forall k | k in L.deps || k in L.cols ensures At(t.cache, k) == At(s.cache, k) {
      assert k !in NonEmpty(keys);
    }
  }

  lemma OtherStep(L: Layout, s: State, step: Step)
    requires L.Valid() && CollectionInv(L, s) && Enabled(L, s, step)
    requires step.OtherLock? || step.OtherSet? || step.OtherRelease? || step.OtherDelete? || step.FlushAll? || step.Evict?
    ensures CollectionInv(L, Apply(L, s, step))
  {
    hide Disturbs, DepKeysOk, ColOk, FillOk, FillListed, ClearOk, BlockOk,
         WriteSentinel, SetValue, ReleaseSentinel, DeleteValue, Flush, GetValue, ClearDependencies, AddDependency;
    var t := Apply(L, s, step);
    OtherDisturbs(L, s, step);
    DisturbedKeeps(L, s, t);
    forall e ensures (e in t.creators ==> ClearOk(t, e)) && (e in t.deleters ==> BlockOk(t, e)) {
      DisturbedHistory(L, s, t, e);
    }
  }

  // ----- Creates -----

  lemma CreateDisturbs(L: Layout, s: State, step: Step)
    requires L.Valid() && CollectionInv(L, s) && Enabled(L, s, step)
    requires step.CreateBegin? || step.CreateCommit? || step.CreateClear? || step.CreateReturn?
    ensures Disturbs(L, s, Apply(L, s, step))
  {
    var t := Apply(L, s, step);
    if step.CreateBegin? { LockDisturbs(L, s, Create, step.lockKeys, step.id, t); }
    if step.CreateClear? {
      forall d | d in L.deps ensures At(t.cache, d) == At(s.cache, d) {
        assert L.NoDeps(s.creators[step.id].clears) by { assert ClearOk(s, step.id); }
      }
    }
  }

  /** Clearing overwrites every lock and value taken before it, so whoever holds one of the keys
      later locked it, and hence fetched, after the create committed. */
  lemma ClearedNow(L: Layout, s: State, step: Step)
    requires L.Valid() && CollectionInv(L, s) && Enabled(L, s, step) && step.CreateClear?
    ensures ClearOk(Apply(L, s, step), step.id)
  {
    var t, clears := Apply(L, s, step), s.creators[step.id].clears;
    forall k | k in clears && k in L.cols ensures k in t.cache && t.cache[k].Tombstone? {
      assert k in Targets(s.cache, step.more + clears, true);
    }
    assert forall r :: r in s.fills ==> FillOk(L, s, r);
  }

  lemma ReturnedStillClear(L: Layout, s: State, step: Step)
    requires L.Valid() && CollectionInv(L, s) && Enabled(L, s, step) && step.CreateReturn?
    ensures ClearOk(Apply(L, s, step), step.id)
  {
    assert ClearOk(s, step.id);
  }

  lemma CreateStep(L: Layout, s: State, step: Step)
    requires L.Valid() && CollectionInv(L, s) && Enabled(L, s, step)
    requires step.CreateBegin? || step.CreateCommit? || step.CreateClear? || step.CreateReturn?
    ensures CollectionInv(L, Apply(L, s, step))
  {
    hide Disturbs, DepKeysOk, ColOk, FillOk, FillListed, BlockOk,
         WriteSentinel, SetValue, ReleaseSentinel, DeleteValue, Flush, GetValue, ClearDependencies, AddDependency;
    var t := Apply(L, s, step);
    CreateDisturbs(L, s, step);
    DisturbedKeeps(L, s, t);
    if step.CreateClear? { ClearedNow(L, s, step); }
    if step.CreateReturn? { ReturnedStillClear(L, s, step); }
    forall e | e in t.creators ensures ClearOk(t, e) {
      if e != step.id { DisturbedHistory(L, s, t, e); }
    }
    forall e | e in t.deleters ensures BlockOk(t, e) { DisturbedHistory(L, s, t, e); }
  }

  // ----- Deletes -----

  /** When the server deletes, the tombstone has already emptied the lists: no registered read
      that depends on the item still holds its key. */
  lemma BlockedNow(L: Layout, s: State, e: Uuid)
    requires L.Valid() && CollectionInv(L, s) && Enabled(L, s, DeleteCommit(e))
    ensures BlockOk(Apply(L, s, DeleteCommit(e)), e)
  {
    assert BlockOk(s, e);
    var d := s.deleters[e].dep;
    forall r | r in s.fills && d in s.fills[r].deps && HasRegistered(s.fills[r]) ensures !Occupies(s, s.fills[r].col, r) {
      assert FillListed(s, r);
      assert !Listed(s, d, s.fills[r].col);
    }
  }

  lemma DeleteStep(L: Layout, s: State, step: Step)
    requires L.Valid() && CollectionInv(L, s) && Enabled(L, s, step)
    requires step.DeleteBegin? || step.DeleteCommit?
    ensures CollectionInv(L, Apply(L, s, step))
  {
    hide Disturbs, DepKeysOk, ColOk, FillOk, FillListed, ClearOk,
         WriteSentinel, SetValue, ReleaseSentinel, DeleteValue, Flush, GetValue, ClearDependencies, AddDependency;
    var t := Apply(L, s, step);
    if step.DeleteBegin? { LockDisturbs(L, s, Delete, step.lockKeys, step.id, t); }
    if step.DeleteCommit? { BlockedNow(L, s, step.id); }
    DisturbedKeeps(L, s, t);
    forall e | e in t.creators ensures ClearOk(t, e) { DisturbedHistory(L, s, t, e); }
    forall e | e in t.deleters ensures BlockOk(t, e) {
      if e != step.id { DisturbedHistory(L, s, t, e); }
    }
  }

  // ----- Reads that fill -----

  lemma LockedColOk(L: Layout, s: State, id: Uuid, col: Key, c: Key)
    requires L.Valid() && CollectionInv(L, s) && Enabled(L, s, FillLock(id, col)) && c in L.cols
    ensures ColOk(Apply(L, s, FillLock(id, col)), c)
    ensures forall r :: r != id && Occupies(Apply(L, s, FillLock(id, col)), c, r) ==> Occupies(s, c, r)
  {
    assert ColOk(s, c);
    assert forall r :: r in s.fills ==> FillOk(L, s, r);
  }

  ghost predicate Locks(L: Layout, s: State, t: State, id: Uuid, col: Key) {
    && id !in s.used && col in L.cols && col !in s.cache
    && t == s.(now := s.now + 1, used := s.used + {id}, cache := s.cache[col := LockOf(Held(ReadLock, id))],
               fills := s.fills[id := Fill(col, Locked, [], "", 0)])
  }

  lemma LockedHistory(L: Layout, s: State, t: State, id: Uuid, col: Key)
    requires L.Valid() && CollectionInv(L, s) && Locks(L, s, t, id, col)
    requires forall c, r :: c in L.cols && r != id && Occupies(t, c, r) ==> Occupies(s, c, r)
    ensures forall e :: e in t.creators ==> ClearOk(t, e)
    ensures forall e :: e in t.deleters ==> BlockOk(t, e)
  {
    hide DepKeysOk, ColOk, FillListed;
    assert forall r :: r in s.fills ==> FillOk(L, s, r);
    forall e | e in t.creators ensures ClearOk(t, e) { assert ClearOk(s, e); }
    forall e | e in t.deleters ensures BlockOk(t, e) { assert BlockOk(s, e); }
  }

  lemma LockedFills(L: Layout, s: State, t: State, id: Uuid, col: Key)
    requires L.Valid() && CollectionInv(L, s) && Locks(L, s, t, id, col)
    ensures forall r :: r in t.fills ==> FillOk(L, t, r) && FillListed(t, r)
  {
    hide DepKeysOk, ColOk, ClearOk, BlockOk;
    forall r | r in t.fills ensures FillOk(L, t, r) && FillListed(t, r) {
      if r != id {
        assert FillOk(L, s, r) && FillListed(s, r);
        assert forall d :: d in s.fills[r].deps && Listed(s, d, s.fills[r].col) ==> Listed(t, d, s.fills[r].col);
      }
    }
  }

  lemma FillLockStep(L: Layout, s: State, id: Uuid, col: Key)
    requires L.Valid() && CollectionInv(L, s) && Enabled(L, s, FillLock(id, col))
    ensures CollectionInv(L, Apply(L, s, FillLock(id, col)))
  {
    hide ColOk, FillOk, FillListed, ClearOk, BlockOk, Occupies;
    var t := Apply(L, s, FillLock(id, col));
    assert Locks(L, s, t, id, col);
    forall c | c in L.cols ensures ColOk(t, c) && forall r :: r != id && Occupies(t, c, r) ==> Occupies(s, c, r) {
      LockedColOk(L, s, id, col, c);
    }
    LockedFills(L, s, t, id, col);
    LockedHistory(L, s, t, id, col);
  }

  lemma FetchedHistory(L: Layout, s: State, id: Uuid, text: string, deps: seq<Key>)
    requires L.Valid() && CollectionInv(L, s) && Enabled(L, s, FillFetch(id, text, deps))
    ensures var t := Apply(L, s, FillFetch(id, text, deps));
      && (forall e :: e in t.creators ==> ClearOk(t, e))
      && (forall e :: e in t.deleters ==> BlockOk(t, e))
  {
    hide BlockOk, Stopped, ColOk, FillListed, DepKeysOk;
    var t := Apply(L, s, FillFetch(id, text, deps));
    assert forall k, r :: Occupies(t, k, r) ==> Occupies(s, k, r);
    forall e | e in t.creators ensures ClearOk(t, e) { assert ClearOk(s, e); }
    forall e | e in t.deleters ensures BlockOk(t, e) { assert BlockOk(s, e); BlockKept(s, t, e); }
  }

  lemma FillFetchStep(L: Layout, s: State, id: Uuid, text: string, deps: seq<Key>)
    requires L.Valid() && CollectionInv(L, s) && Enabled(L, s, FillFetch(id, text, deps))
    ensures CollectionInv(L, Apply(L, s, FillFetch(id, text, deps)))
  {
    hide BlockOk, Stopped, ClearOk;
    FetchedHistory(L, s, id, text, deps);
    var t := Apply(L, s, FillFetch(id, text, deps));
    forall c | c in L.cols ensures ColOk(t, c) { assert ColOk(s, c); }
    assert forall k, r :: Occupies(t, k, r) ==> Occupies(s, k, r);
    forall r | r in t.fills ensures FillOk(L, t, r) && FillListed(t, r) {
      assert FillOk(L, s, r) && FillListed(s, r);
      assert forall d, c :: Listed(s, d, c) ==> Listed(t, d, c);
    }
  }

  /** Fills keep their past, nothing new is registered, and whoever occupies a key with an
      answer in hand did so before. */
  ghost predicate Narrows(L: Layout, s: State, t: State) {
    && t.fills.Keys == s.fills.Keys && t.creators == s.creators && t.deleters == s.deleters
    && t.used == s.used && t.now == s.now + 1
    && (forall d :: d in L.deps ==> At(t.cache, d) == At(s.cache, d))
    && (forall r :: r in s.fills ==>
         && t.fills[r].col == s.fills[r].col && t.fills[r].deps == s.fills[r].deps && t.fills[r].fetchAt == s.fills[r].fetchAt
         && (HasRegistered(t.fills[r]) ==> HasRegistered(s.fills[r]))
         && (t.fills[r].phase != s.fills[r].phase ==> t.fills[r].phase == Installed || t.fills[r].phase == Over)
         && (HasRegistered(t.fills[r]) && Occupies(t, s.fills[r].col, r) ==> Occupies(s, s.fills[r].col, r))
         && (t.fills[r].phase == Fetched && Occupies(t, s.fills[r].col, r) ==> Occupies(s, s.fills[r].col, r)))
  }

  lemma NarrowKeeps(L: Layout, s: State, t: State)
    requires L.Valid() && CollectionInv(L, s) && Narrows(L, s, t)
    requires forall c :: c in L.cols ==> ColOk(t, c)
    ensures CollectionInv(L, t)
  {
    hide BlockOk, Stopped;
    hide ColOk;
    forall r | r in t.fills ensures FillOk(L, t, r) && FillListed(t, r) {
      assert FillOk(L, s, r) && FillListed(s, r);
      assert forall d, c :: d in L.deps && Listed(s, d, c) ==> Listed(t, d, c);
    }
    forall e | e in t.creators ensures ClearOk(t, e) { assert ClearOk(s, e); }
    forall e | e in t.deleters ensures BlockOk(t, e) { assert BlockOk(s, e); BlockKept(s, t, e); }
  }

  /** A fill installs exactly when its own lock is still in the key. */
  lemma InstallEffect(m: Cache, col: Key, text: string, s: Sentinel)
    requires col != "" && s.Held? && s.kind == ReadLock
    ensures SetValue(m, col, [col], text, s) ==
      if At(m, col) == Some(LockOf(s)) then SetResult(m[col := Plain(text)], true, false, false)
      else SetResult(m, false, At(m, col).Some? && !m[col].Names?, false)
  {
    assert [col][..|[col]| - 1] == [];
    assert NonEmpty([col]) == [col];
    assert SetAll(m, [col], Plain(text)) == m[col := Plain(text)];
  }

  ghost predicate Installs(s: State, t: State, id: Uuid) {
    && id in s.fills && s.fills[id].phase == Registered
    && At(s.cache, s.fills[id].col) == Some(LockOf(Held(ReadLock, id)))
    && t == s.(now := s.now + 1, cache := s.cache[s.fills[id].col := Plain(s.fills[id].text)],
               fills := s.fills[id := s.fills[id].(phase := Installed)], owner := s.owner[s.fills[id].col := id])
  }

  lemma InstalledColOk(L: Layout, s: State, t: State, id: Uuid, c: Key)
    requires L.Valid() && CollectionInv(L, s) && Installs(s, t, id) && c in L.cols
    ensures ColOk(t, c)
  {
    hide DepKeysOk, FillListed, ClearOk, BlockOk;
    assert FillOk(L, s, id) && ColOk(s, c);
  }

  lemma InstalledOccupies(s: State, t: State, id: Uuid, r: Uuid)
    requires Installs(s, t, id) && r in s.fills
    ensures Occupies(t, s.fills[r].col, r) ==> Occupies(s, s.fills[r].col, r)
  {
  }

  lemma InstalledNarrows(L: Layout, s: State, t: State, id: Uuid)
    requires L.Valid() && CollectionInv(L, s) && Installs(s, t, id)
    ensures Narrows(L, s, t)
  {
    assert FillOk(L, s, id);
    hide CollectionInv, DepKeysOk, FillListed, ClearOk, BlockOk, ColOk, Occupies;
    forall r | r in s.fills ensures Occupies(t, s.fills[r].col, r) ==> Occupies(s, s.fills[r].col, r) {
      InstalledOccupies(s, t, id, r);
    }
  }

  /** Letting go of a key, or finding it taken, ends a fill. */
  ghost predicate Ends(L: Layout, s: State, t: State, id: Uuid) {
    && id in s.fills && s.fills[id].phase != Locked
    && (t.cache == s.cache || (At(s.cache, s.fills[id].col) == Some(LockOf(Held(ReadLock, id))) && t.cache == s.cache - {s.fills[id].col}))
    && t == s.(now := s.now + 1, cache := t.cache,
               fills := s.fills[id := s.fills[id].(phase := if s.fills[id].phase == Installed then Installed else Over)])
  }

  lemma EndedColOk(L: Layout, s: State, t: State, id: Uuid, c: Key)
    requires L.Valid() && CollectionInv(L, s) && Ends(L, s, t, id) && c in L.cols
    ensures ColOk(t, c)
  {
    assert ColOk(s, c);
  }

  lemma EndedNarrows(L: Layout, s: State, t: State, id: Uuid)
    requires L.Valid() && CollectionInv(L, s) && Ends(L, s, t, id)
    ensures Narrows(L, s, t)
  {
    assert FillOk(L, s, id);
    hide CollectionInv, ColOk, DepKeysOk, FillListed, ClearOk, BlockOk;
    assert forall c, r :: r != id && Occupies(t, c, r) ==> Occupies(s, c, r);
  }

  lemma EndedKeeps(L: Layout, s: State, t: State, id: Uuid)
    requires L.Valid() && CollectionInv(L, s) && Ends(L, s, t, id)
    ensures CollectionInv(L, t)
  {
    forall c | c in L.cols ensures ColOk(t, c) { EndedColOk(L, s, t, id, c); }
    EndedNarrows(L, s, t, id);
    NarrowKeeps(L, s, t);
  }

  lemma FillInstallStep(L: Layout, s: State, id: Uuid)
    requires L.Valid() && CollectionInv(L, s) && Enabled(L, s, FillInstall(id))
    ensures CollectionInv(L, Apply(L, s, FillInstall(id)))
  {
    var t, f := Apply(L, s, FillInstall(id)), s.fills[id];
    assert FillOk(L, s, id) && ColOk(s, f.col);
    InstallEffect(s.cache, f.col, f.text, Held(ReadLock, id));
    if At(s.cache, f.col) == Some(LockOf(Held(ReadLock, id))) {
      forall c | c in L.cols ensures ColOk(t, c) { InstalledColOk(L, s, t, id, c); }
      InstalledNarrows(L, s, t, id);
      NarrowKeeps(L, s, t);
    } else {
      EndedKeeps(L, s, t, id);
    }
  }

  lemma ReleaseEffect(m: Cache, col: Key, s: Sentinel)
    requires col != "" && s.Held?
    ensures ReleaseSentinel(m, [col], s) == if At(m, col) == Some(LockOf(s)) then m - {col} else m
  {
  }

  lemma FillReleaseStep(L: Layout, s: State, id: Uuid)
    requires L.Valid() && CollectionInv(L, s) && Enabled(L, s, FillRelease(id))
    ensures CollectionInv(L, Apply(L, s, FillRelease(id)))
  {
    var t, f := Apply(L, s, FillRelease(id)), s.fills[id];
    assert FillOk(L, s, id);
    ReleaseEffect(s.cache, f.col, Held(ReadLock, id));
    EndedKeeps(L, s, t, id);
  }

  // ----- Dependency lists -----

  predicate NameListed(m: Cache, d: Key, c: Key) { d in m && m[d].Names? && c in m[d].keys }

  /** Adding names to lists changes only those lists, never a tombstone, and loses no member that
      is still in the cache. */
  ghost predicate Grows(m: Cache, n: Cache, dkeys: seq<Key>, names: seq<Key>) {
    && (forall k :: k !in dkeys ==> At(n, k) == At(m, k))
    && (forall k :: k in m ==> k in n)
    && (forall d :: d in dkeys && At(n, d) != At(m, d) ==> d in n && n[d].Names? && !(d in m && m[d].Tombstone?))
    && (forall d, c :: d in dkeys && At(n, d) != At(m, d) && NameListed(n, d, c) ==> c in names || NameListed(m, d, c))
    && (forall d, c :: c in m && NameListed(m, d, c) ==> NameListed(n, d, c))
  }

  /** One more list, rebuilt from the names and its members that are still there. */
  lemma GrowsByOne(m: Cache, before: Cache, dkeys: seq<Key>, dkey: Key, names: seq<Key>)
    requires Grows(m, before, dkeys, names) && !(dkey in before && before[dkey].Tombstone?)
    ensures Grows(m, before[dkey := Names(Merged(before, dkey, names))], dkeys + [dkey], names)
  {
    hide Merged;
    MergedMembers(before, dkey, names);
    var n := before[dkey := Names(Merged(before, dkey, names))];
    forall d, c | d in dkeys + [dkey] && At(n, d) != At(m, d) && NameListed(n, d, c)
      ensures c in names || NameListed(m, d, c)
    {
      if d == dkey && c !in names { assert NameListed(before, d, c); }
    }
    forall d, c | c in m && NameListed(m, d, c) ensures NameListed(n, d, c) {
      assert NameListed(before, d, c);
    }
  }

  lemma {:induction false} AddAllGrows(m: Cache, dkeys: seq<Key>, names: seq<Key>)
    ensures Grows(m, AddAll(m, dkeys, names).cache, dkeys, names)
    decreases |dkeys|
  {
    if dkeys != [] {
      var init, dkey := dkeys[..|dkeys| - 1], dkeys[|dkeys| - 1];
      assert dkeys == init + [dkey];
      AddAllGrows(m, init, names);
      var before := AddAll(m, init, names);
      if !AddAll(m, dkeys, names).error {
        GrowsByOne(m, before.cache, init, dkey, names);
      }
    }
  }

  /** When the call succeeds every list has every name. */
  lemma {:induction false} AddAllLists(m: Cache, dkeys: seq<Key>, names: seq<Key>, d: Key, c: Key)
    requires !AddAll(m, dkeys, names).error && d in dkeys && c in names
    ensures NameListed(AddAll(m, dkeys, names).cache, d, c)
    decreases |dkeys|
  {
    var init, dkey := dkeys[..|dkeys| - 1], dkeys[|dkeys| - 1];
    var before := AddAll(m, init, names);
    MergedMembers(before.cache, dkey, names);
    if d != dkey { AddAllLists(m, init, names, d, c); }
  }

  lemma MergedMembers(m: Cache, dkey: Key, names: seq<Key>)
    ensures forall c :: c in Merged(m, dkey, names) <==> c in names || (c in m && NameListed(m, dkey, c))
  {
  }

  lemma GrowKeeps(L: Layout, s: State, t: State, dkeys: seq<Key>, names: seq<Key>)
    requires L.Valid() && CollectionInv(L, s) && Grows(s.cache, t.cache, dkeys, names)
    requires (forall d :: d in dkeys ==> d in L.deps) && L.NoDeps(names)
    requires t == s.(now := s.now + 1, cache := t.cache)
    ensures CollectionInv(L, t)
  {
    forall c | c in L.cols ensures ColOk(t, c) { assert ColOk(s, c); }
    GrowFills(L, s, t, dkeys, names);
    GrowDepKeys(L, s, t, dkeys, names);
    hide DepKeysOk, FillListed, ColOk, Grows;
    forall e | e in t.creators ensures ClearOk(t, e) { assert ClearOk(s, e); assert forall r :: r in s.fills ==> FillOk(L, s, r); }
    forall e | e in t.deleters ensures BlockOk(t, e) { assert BlockOk(s, e); assert forall r :: r in s.fills ==> FillOk(L, s, r); }
  }

  lemma GrowFills(L: Layout, s: State, t: State, dkeys: seq<Key>, names: seq<Key>)
    requires L.Valid() && CollectionInv(L, s) && Grows(s.cache, t.cache, dkeys, names)
    requires (forall d :: d in dkeys ==> d in L.deps) && L.NoDeps(names)
    requires t == s.(now := s.now + 1, cache := t.cache)
    ensures forall r :: r in t.fills ==> FillOk(L, t, r) && FillListed(t, r)
  {
    hide DepKeysOk, ClearOk, BlockOk, ColOk;
    forall r | r in t.fills ensures FillOk(L, t, r) && FillListed(t, r) {
      assert FillOk(L, s, r) && FillListed(s, r);
      var f := s.fills[r];
      if HasRegistered(f) && Occupies(t, f.col, r) {
        assert Occupies(s, f.col, r);
        forall d | d in f.deps ensures Listed(t, d, f.col) {
          assert Listed(s, d, f.col) && NameListed(s.cache, d, f.col);
          assert NameListed(t.cache, d, f.col);
        }
      }
    }
  }

  lemma GrowDepKeys(L: Layout, s: State, t: State, dkeys: seq<Key>, names: seq<Key>)
    requires L.Valid() && DepKeysOk(L, s) && Grows(s.cache, t.cache, dkeys, names) && L.NoDeps(names)
    ensures DepKeysOk(L, t)
  {
    forall d | d in L.deps && d in t.cache
      ensures t.cache[d].Tombstone? || (t.cache[d].Names? && L.NoDeps(t.cache[d].keys))
    {
      if d in dkeys && At(t.cache, d) != At(s.cache, d) {
        forall c | c in t.cache[d].keys ensures c !in L.deps { assert NameListed(t.cache, d, c); }
      } else {
        assert At(t.cache, d) == At(s.cache, d);
      }
    }
  }

  lemma OtherRegisterStep(L: Layout, s: State, dkeys: seq<Key>, names: seq<Key>)
    requires L.Valid() && CollectionInv(L, s) && Enabled(L, s, OtherRegister(dkeys, names))
    ensures CollectionInv(L, Apply(L, s, OtherRegister(dkeys, names)))
  {
    hide CollectionInv, Grows;
    AddAllGrows(s.cache, NonEmpty(dkeys), NonEmpty(names));
    GrowKeeps(L, s, Apply(L, s, OtherRegister(dkeys, names)), NonEmpty(dkeys), NonEmpty(names));
  }

  /** Registering is growing the lists and then moving on: to Registered when every list took the
      collection's key, to Over as soon as one is tombstoned. */
  lemma FillRegisterStep(L: Layout, s: State, id: Uuid)
    requires L.Valid() && CollectionInv(L, s) && Enabled(L, s, FillRegister(id))
    ensures CollectionInv(L, Apply(L, s, FillRegister(id)))
  {
    var t, f := Apply(L, s, FillRegister(id)), s.fills[id];
    assert FillOk(L, s, id);
    hide CollectionInv, Grows, AddAll;
    assert NonEmpty([f.col]) == [f.col] by { assert [f.col][..0] == []; }
    AddAllGrows(s.cache, NonEmpty(f.deps), [f.col]);
    var mid := s.(now := s.now + 1, cache := t.cache);
    GrowKeeps(L, s, mid, NonEmpty(f.deps), [f.col]);
    if t.fills[id].phase == Registered {
      forall d | d in f.deps ensures Listed(mid, d, f.col) { AddAllLists(s.cache, NonEmpty(f.deps), [f.col], d, f.col); }
    }
    FillMovesOn(L, mid, t, id, t.fills[id].phase);
  }

  lemma FillMovesOn(L: Layout, mid: State, t: State, id: Uuid, phase: FillPhase)
    requires L.Valid() && CollectionInv(L, mid) && id in mid.fills && mid.fills[id].phase == Fetched
    requires t == mid.(fills := mid.fills[id := mid.fills[id].(phase := phase)])
    requires phase == Over || (phase == Registered && forall d :: d in mid.fills[id].deps ==> Listed(mid, d, mid.fills[id].col))
    ensures CollectionInv(L, t)
  {
    hide BlockOk, Stopped;
    assert forall k, r :: Occupies(t, k, r) <==> Occupies(mid, k, r);
    forall c | c in L.cols ensures ColOk(t, c) { assert ColOk(mid, c); }
    forall r | r in t.fills ensures FillOk(L, t, r) && FillListed(t, r) {
      assert FillOk(L, mid, r) && FillListed(mid, r);
      assert forall d, c :: Listed(mid, d, c) ==> Listed(t, d, c);
    }
    forall e | e in t.creators ensures ClearOk(t, e) { assert ClearOk(mid, e); }
    forall e | e in t.deleters ensures BlockOk(t, e) { assert BlockOk(mid, e); BlockKept(mid, t, e); }
  }

  // ----- Clearing and expiring a list -----

  /** After the list of d is gone nobody registered with d occupies a key. */
  ghost predicate Empties(L: Layout, s: State, t: State, d: Key) {
    && d in L.deps
    && (forall x :: x in L.deps && x != d ==> At(t.cache, x) == At(s.cache, x))
    && (forall c :: c in L.cols ==> c !in t.cache || (At(t.cache, c) == At(s.cache, c) && !NameListed(s.cache, d, c)))
    && t == s.(now := s.now + 1, cache := t.cache)
  }

  lemma EmptiesHistory(L: Layout, s: State, t: State, d: Key)
    requires L.Valid() && CollectionInv(L, s) && Empties(L, s, t, d)
    requires d in t.cache ==> t.cache[d].Tombstone?
    requires d in s.cache && s.cache[d].Tombstone? && d !in t.cache ==> Enabled(L, s, Expire(d))
    ensures forall e :: e in t.creators ==> ClearOk(t, e)
    ensures forall e :: e in t.deleters ==> BlockOk(t, e)
  {
    hide BlockOk, Stopped, ColOk, FillListed, DepKeysOk;
    assert forall r :: r in s.fills ==> FillOk(L, s, r);
    forall e | e in t.creators ensures ClearOk(t, e) { assert ClearOk(s, e); }
    forall e | e in t.deleters ensures BlockOk(t, e) { assert BlockOk(s, e); BlockKept(s, t, e); }
  }

  lemma EmptiesKeeps(L: Layout, s: State, t: State, d: Key)
    requires L.Valid() && CollectionInv(L, s) && Empties(L, s, t, d)
    requires d in t.cache ==> t.cache[d].Tombstone?
    requires d in s.cache && s.cache[d].Tombstone? && d !in t.cache ==> Enabled(L, s, Expire(d))
    ensures CollectionInv(L, t)
  {
    EmptiesHistory(L, s, t, d);
    hide BlockOk, Stopped, ClearOk;
    assert forall r :: r in s.fills ==> FillOk(L, s, r);
    forall c | c in L.cols ensures ColOk(t, c) { assert ColOk(s, c); }
    forall r | r in t.fills ensures FillOk(L, t, r) && FillListed(t, r) {
      assert FillOk(L, s, r) && FillListed(s, r);
      var f := s.fills[r];
      if HasRegistered(f) && Occupies(t, f.col, r) {
        assert Occupies(s, f.col, r);
        forall x | x in f.deps ensures Listed(t, x, f.col) { assert Listed(s, x, f.col); }
      }
    }
  }

  lemma ClearEmpties(L: Layout, s: State, d: Key, tombstone: bool, tombId: Uuid)
    requires L.Valid() && CollectionInv(L, s) && d in L.deps
    ensures Empties(L, s, s.(now := s.now + 1, cache := ClearDependencies(s.cache, d, tombstone, tombId)), d)
  {
  }

  lemma ClearStep(L: Layout, s: State, step: Step)
    requires L.Valid() && CollectionInv(L, s) && Enabled(L, s, step)
    requires step.DeleteBlock? || step.OtherClear? || step.Expire?
    ensures CollectionInv(L, Apply(L, s, step))
  {
    var t := Apply(L, s, step);
    match step
    case DeleteBlock(id, tombId) =>
      var mid := s.(now := s.now + 1, cache := t.cache);
      ClearEmpties(L, s, s.deleters[id].dep, true, tombId);
      EmptiesKeeps(L, s, mid, s.deleters[id].dep);
      BlockKeeps(L, mid, t, id);
    case OtherClear(dep, tombstone, tombId) =>
      ClearEmpties(L, s, dep, tombstone, tombId);
      EmptiesKeeps(L, s, t, dep);
    case Expire(dep) =>
      EmptiesKeeps(L, s, t, dep);
  }

  lemma BlockKeeps(L: Layout, mid: State, t: State, id: Uuid)
    requires L.Valid() && CollectionInv(L, mid) && id in mid.deleters
    requires t == mid.(deleters := mid.deleters[id := mid.deleters[id].(phase := Blocked)])
    requires mid.deleters[id].dep in mid.cache && mid.cache[mid.deleters[id].dep].Tombstone?
    ensures CollectionInv(L, t)
  {
    hide Stopped;
    assert forall k, r :: Occupies(t, k, r) <==> Occupies(mid, k, r);
    forall c | c in L.cols ensures ColOk(t, c) { assert ColOk(mid, c); }
    forall r | r in t.fills ensures FillOk(L, t, r) && FillListed(t, r) {
      assert FillOk(L, mid, r) && FillListed(mid, r);
      assert forall d, c :: Listed(mid, d, c) ==> Listed(t, d, c);
    }
    forall e | e in t.creators ensures ClearOk(t, e) { assert ClearOk(mid, e); }
    forall e | e in t.deleters ensures BlockOk(t, e) {
      assert BlockOk(mid, e);
      if e != id { BlockKept(mid, t, e); }
    }
  }

  // ----- Every run -----

  lemma OneStep(L: Layout, s: State, step: Step)
    requires L.Valid() && CollectionInv(L, s) && Enabled(L, s, step)
    ensures CollectionInv(L, Apply(L, s, step))
  {
    hide CollectionInv, Enabled, Apply;
    match step
    case FillLock(id, col) => FillLockStep(L, s, id, col);
    case FillFetch(id, text, deps) => FillFetchStep(L, s, id, text, deps);
    case FillRegister(id) => FillRegisterStep(L, s, id);
    case FillInstall(id) => FillInstallStep(L, s, id);
    case FillRelease(id) => FillReleaseStep(L, s, id);
    case CreateBegin(_, _, _) => CreateStep(L, s, step);
    case CreateCommit(_) => CreateStep(L, s, step);
    case CreateClear(_, _, _) => CreateStep(L, s, step);
    case CreateReturn(_) => CreateStep(L, s, step);
    case DeleteBegin(_, _, _) => DeleteStep(L, s, step);
    case DeleteBlock(_, _) => ClearStep(L, s, step);
    case DeleteCommit(_) => DeleteStep(L, s, step);
    case OtherRegister(dkeys, names) => OtherRegisterStep(L, s, dkeys, names);
    case OtherClear(_, _, _) => ClearStep(L, s, step);
    case Expire(_) => ClearStep(L, s, step);
    case OtherLock(_, _, _) => OtherStep(L, s, step);
    case OtherSet(_, _, _, _) => OtherStep(L, s, step);
    case OtherRelease(_, _) => OtherStep(L, s, step);
    case OtherDelete(_, _, _, _) => OtherStep(L, s, step);
    case FlushAll(_) => OtherStep(L, s, step);
    case Evict(_) => OtherStep(L, s, step);
  }

  lemma {:induction false} Run(L: Layout, s: State, run: seq<Step>)
    requires L.Valid() && CollectionInv(L, s) && Legal(L, s, run)
    ensures CollectionInv(L, After(L, s, run))
    decreases run
  {
    hide CollectionInv, Enabled, Apply;
    if run != [] {
      OneStep(L, s, run[0]);
      Run(L, Apply(L, s, run[0]), run[1..]);
    }
  }

  lemma {:induction false} LegalConcat(L: Layout, s: State, a: seq<Step>, b: seq<Step>)
    requires L.Valid() && Legal(L, s, a) && Legal(L, After(L, s, a), b)
    ensures Legal(L, s, a + b) && After(L, s, a + b) == After(L, After(L, s, a), b)
    decreases a
  {
    hide Apply, Enabled;
    if a == [] {
      assert a + b == b;
    } else {
      assert (a + b)[1..] == a[1..] + b;
      LegalConcat(L, Apply(L, s, a[0]), a[1..], b);
    }
  }

  // ----- The theorems -----

  /** While a dependency list is tombstoned, no cached collection or path depends on its item,
      and no read that depends on it still holds a registered lock. */
  lemma DependencySafety(L: Layout, s: State, run: seq<Step>, x: Key)
    requires L.Valid() && Init(s) && Legal(L, s, run) && x in L.deps
    ensures var t := After(L, s, run);
      x in t.cache && t.cache[x].Tombstone? ==>
      && (forall c :: c in L.cols && c in t.cache && t.cache[c].Plain? ==>
           && c in t.owner && t.owner[c] in t.fills && x !in t.fills[t.owner[c]].deps
           && t.cache[c].text == t.fills[t.owner[c]].text)
      && (forall r :: r in t.fills && t.fills[r].phase == Registered && x in t.fills[r].deps ==>
           At(t.cache, t.fills[r].col) != Some(LockOf(Held(ReadLock, r))))
  {
    Run(L, s, run);
    var t := After(L, s, run);
    if x in t.cache && t.cache[x].Tombstone? {
      forall c | c in L.cols && c in t.cache && t.cache[c].Plain? ensures x !in t.fills[t.owner[c]].deps {
        assert ColOk(t, c) && FillListed(t, t.owner[c]) && !Listed(t, x, c);
      }
      forall r | r in t.fills && t.fills[r].phase == Registered && x in t.fills[r].deps
        ensures At(t.cache, t.fills[r].col) != Some(LockOf(Held(ReadLock, r)))
      {
        assert FillListed(t, r) && !Listed(t, x, t.fills[r].col);
      }
    }
  }

  /** A tombstone stops every fill that depends on the item: one that has yet to register is
      refused, and one that registered before the list was cleared installs nothing. */
  lemma TombstoneStopsFills(L: Layout, s: State, run: seq<Step>, x: Key, r: Uuid)
    requires L.Valid() && Init(s) && Legal(L, s, run)
    requires var t := After(L, s, run);
      x in t.cache && t.cache[x].Tombstone? && r in t.fills && x in t.fills[r].deps
    ensures var t := After(L, s, run);
      && (Enabled(L, t, FillRegister(r)) ==> Apply(L, t, FillRegister(r)).fills[r].phase == Over)
      && (Enabled(L, t, FillInstall(r)) ==> Apply(L, t, FillInstall(r)).cache == t.cache)
  {
    Run(L, s, run);
    var t := After(L, s, run);
    var f := t.fills[r];
    assert FillOk(L, t, r);
    if Enabled(L, t, FillRegister(r)) { RefusedByTombstone(t.cache, NonEmpty(f.deps), NonEmpty([f.col]), x); }
    if Enabled(L, t, FillInstall(r)) {
      assert FillListed(t, r) && !Listed(t, x, f.col);
      InstallEffect(t.cache, f.col, f.text, Held(ReadLock, r));
    }
  }

  lemma {:induction false} RefusedByTombstone(m: Cache, dkeys: seq<Key>, names: seq<Key>, x: Key)
    requires x in dkeys && x in m && m[x].Tombstone?
    ensures AddAll(m, dkeys, names).error
    decreases |dkeys|
  {
    var init := dkeys[..|dkeys| - 1];
    if x in init { RefusedByTombstone(m, init, names, x); } else { AddAllGrows(m, init, names); }
  }

  /** Read after write: once a create that held its lock has returned, whatever is cached in the
      collections it clears was fetched after the server committed the create. */
  lemma ReadAfterWrite(L: Layout, s: State, run: seq<Step>, e: Uuid, k: Key)
    requires L.Valid() && Init(s) && Legal(L, s, run)
    requires var t := After(L, s, run);
      && e in t.creators && t.creators[e].granted && t.creators[e].phase == Returned
      && k in L.cols && k in t.creators[e].clears && k in t.cache && t.cache[k].Plain?
    ensures var t := After(L, s, run);
      && k in t.owner && t.owner[k] in t.fills && t.fills[t.owner[k]].text == t.cache[k].text
      && t.creators[e].commitAt < t.fills[t.owner[k]].fetchAt
  {
    Run(L, s, run);
    var t := After(L, s, run);
    assert ColOk(t, k) && ClearOk(t, e);
  }

  /** Read after delete: once the server has deleted an item, no cached collection that depends on
      it was fetched before the delete. */
  lemma ReadAfterDelete(L: Layout, s: State, run: seq<Step>, e: Uuid, k: Key)
    requires L.Valid() && Init(s) && Legal(L, s, run)
    requires var t := After(L, s, run);
      && e in t.deleters && t.deleters[e].phase == Deleted
      && k in L.cols && k in t.cache && t.cache[k].Plain?
    ensures var t := After(L, s, run);
      && k in t.owner && t.owner[k] in t.fills && t.fills[t.owner[k]].text == t.cache[k].text
      && (t.deleters[e].dep in t.fills[t.owner[k]].deps ==> t.deleters[e].commitAt <= t.fills[t.owner[k]].fetchAt)
  {
    Run(L, s, run);
    var t := After(L, s, run);
    assert ColOk(t, k) && BlockOk(t, e);
  }
}
