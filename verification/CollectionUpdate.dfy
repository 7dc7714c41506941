/** Read after update. An update clears the list of its item without leaving a tombstone, so unlike
    a delete it cannot turn away a read that the server has already answered. */
module CollectionUpdate {
  import opened Options
  import opened Sentinels
  import opened CacheOps
  import opened SlotOps
  import opened CollectionProtocol
  import opened CollectionSafety

  /** The cache serves a collection that depends on x and was fetched before time T. */
  ghost predicate Serves(L: Layout, s: State, x: Key, T: nat, k: Key) {
    && k in L.cols && k in s.cache && s.cache[k].Plain? && k in s.owner && s.owner[k] in s.fills
    && x in s.fills[s.owner[k]].deps && s.fills[s.owner[k]].fetchAt < T
  }

  ghost predicate ServesOld(L: Layout, s: State, x: Key, T: nat) { exists k :: Serves(L, s, x, T, k) }

  ghost predicate EverServesOld(L: Layout, s: State, x: Key, T: nat)
    requires L.Valid()
  {
    exists run :: Legal(L, s, run) && ServesOld(L, After(L, s, run), x, T)
  }

  /** A read that depends on x, answered before time T, that nothing stops any more: it has yet to
      register, it still holds its key, and none of its lists is tombstoned. */
  ghost predicate Escapes(s: State, x: Key, T: nat, r: Uuid) {
    r in s.fills && x in s.fills[r].deps && s.fills[r].phase == Fetched && s.fills[r].fetchAt < T && !Stopped(s, r)
  }

  // ----- If no read escapes -----

  /** The same state, with a client that deleted the item of x at time T. */
  function WithDelete(s: State, e: Uuid, x: Key, T: nat): State {
    s.(deleters := s.deleters[e := Deleter(x, Deleted, T)])
  }

  ghost predicate Apart(L: Layout, s: State, step: Step, e: Uuid, x: Key, T: nat)
    requires L.Valid() && Enabled(L, s, step)
  {
    && Enabled(L, WithDelete(s, e, x, T), step)
    && Apply(L, WithDelete(s, e, x, T), step) == WithDelete(Apply(L, s, step), e, x, T)
    && e in Apply(L, s, step).used && e !in Apply(L, s, step).deleters
  }

  lemma FillApart(L: Layout, s: State, step: Step, e: Uuid, x: Key, T: nat)
    requires L.Valid() && Enabled(L, s, step) && e in s.used && e !in s.deleters
    requires step.FillLock? || step.FillFetch?
    ensures Apart(L, s, step, e, x, T)
  {
    hide WriteSentinel, SetValue, ReleaseSentinel, DeleteValue, Flush, GetValue, ClearDependencies, AddDependency;
  }

  lemma StoreApart(L: Layout, s: State, step: Step, e: Uuid, x: Key, T: nat)
    requires L.Valid() && Enabled(L, s, step) && e in s.used && e !in s.deleters
    requires step.FillRegister?
    ensures Apart(L, s, step, e, x, T)
  {
    hide WriteSentinel, SetValue, ReleaseSentinel, DeleteValue, Flush, GetValue, ClearDependencies, AddDependency;
  }

  lemma EndApart(L: Layout, s: State, step: Step, e: Uuid, x: Key, T: nat)
    requires L.Valid() && Enabled(L, s, step) && e in s.used && e !in s.deleters
    requires step.FillInstall? || step.FillRelease?
    ensures Apart(L, s, step, e, x, T)
  {
    hide WriteSentinel, SetValue, ReleaseSentinel, DeleteValue, Flush, GetValue, ClearDependencies, AddDependency;
  }

  lemma CreateApart(L: Layout, s: State, step: Step, e: Uuid, x: Key, T: nat)
    requires L.Valid() && Enabled(L, s, step) && e in s.used && e !in s.deleters
    requires step.CreateBegin? || step.CreateCommit? || step.CreateClear? || step.CreateReturn?
    ensures Apart(L, s, step, e, x, T)
  {
    hide WriteSentinel, SetValue, ReleaseSentinel, DeleteValue, Flush, GetValue, ClearDependencies, AddDependency;
  }

  lemma OtherApart(L: Layout, s: State, step: Step, e: Uuid, x: Key, T: nat)
    requires L.Valid() && Enabled(L, s, step) && e in s.used && e !in s.deleters
    requires step.OtherLock? || step.OtherSet? || step.OtherRelease?
    ensures Apart(L, s, step, e, x, T)
  {
    hide WriteSentinel, SetValue, ReleaseSentinel, DeleteValue, Flush, GetValue, ClearDependencies, AddDependency;
  }

  lemma ClearApart(L: Layout, s: State, step: Step, e: Uuid, x: Key, T: nat)
    requires L.Valid() && Enabled(L, s, step) && e in s.used && e !in s.deleters
    requires step.OtherDelete? || step.OtherRegister? || step.OtherClear?
    ensures Apart(L, s, step, e, x, T)
  {
    hide WriteSentinel, SetValue, ReleaseSentinel, DeleteValue, Flush, GetValue, ClearDependencies, AddDependency;
  }

  lemma LossApart(L: Layout, s: State, step: Step, e: Uuid, x: Key, T: nat)
    requires L.Valid() && Enabled(L, s, step) && e in s.used && e !in s.deleters
    requires step.FlushAll? || step.Evict? || step.Expire?
    ensures Apart(L, s, step, e, x, T)
  {
    hide WriteSentinel, SetValue, ReleaseSentinel, DeleteValue, Flush, GetValue, ClearDependencies, AddDependency;
  }

  lemma OtherDeleteApart(L: Layout, s: State, step: Step, e: Uuid, x: Key, T: nat)
    requires L.Valid() && Enabled(L, s, step) && e in s.used && e !in s.deleters
    requires step.DeleteBegin? || step.DeleteCommit?
    ensures Apart(L, s, step, e, x, T)
  {
    hide WriteSentinel, ClearDependencies;
    var mine := Deleter(x, Deleted, T);
    assert step.id != e;
    var d := Apply(L, s, step).deleters[step.id];
    assert s.deleters[e := mine][step.id := d] == s.deleters[step.id := d][e := mine];
  }

  lemma BlockApart(L: Layout, s: State, step: Step, e: Uuid, x: Key, T: nat)
    requires L.Valid() && Enabled(L, s, step) && e in s.used && e !in s.deleters
    requires step.DeleteBlock?
    ensures Apart(L, s, step, e, x, T)
  {
    hide WriteSentinel, ClearDependencies;
    var mine := Deleter(x, Deleted, T);
    assert step.id != e;
    var d := Apply(L, s, step).deleters[step.id];
    assert s.deleters[e := mine][step.id := d] == s.deleters[step.id := d][e := mine];
  }

  /** Such a client takes no further part, so it changes no run. */
  lemma DeleteApart(L: Layout, s: State, step: Step, e: Uuid, x: Key, T: nat)
    requires L.Valid() && Enabled(L, s, step) && e in s.used && e !in s.deleters
    ensures Apart(L, s, step, e, x, T)
  {
    hide Enabled, Apply, Apart;
    match step
    case DeleteBegin(_, _, _) => OtherDeleteApart(L, s, step, e, x, T);
    case DeleteBlock(_, _) => BlockApart(L, s, step, e, x, T);
    case DeleteCommit(_) => OtherDeleteApart(L, s, step, e, x, T);
    case FillLock(_, _) => FillApart(L, s, step, e, x, T);
    case FillFetch(_, _, _) => FillApart(L, s, step, e, x, T);
    case FillRegister(_) => StoreApart(L, s, step, e, x, T);
    case FillInstall(_) => EndApart(L, s, step, e, x, T);
    case FillRelease(_) => EndApart(L, s, step, e, x, T);
    case CreateBegin(_, _, _) => CreateApart(L, s, step, e, x, T);
    case CreateCommit(_) => CreateApart(L, s, step, e, x, T);
    case CreateClear(_, _, _) => CreateApart(L, s, step, e, x, T);
    case CreateReturn(_) => CreateApart(L, s, step, e, x, T);
    case FlushAll(_) => LossApart(L, s, step, e, x, T);
    case Evict(_) => LossApart(L, s, step, e, x, T);
    case Expire(_) => LossApart(L, s, step, e, x, T);
    case OtherDelete(_, _, _, _) => ClearApart(L, s, step, e, x, T);
    case OtherRegister(_, _) => ClearApart(L, s, step, e, x, T);
    case OtherClear(_, _, _) => ClearApart(L, s, step, e, x, T);
    case _ => OtherApart(L, s, step, e, x, T);
  }

  lemma {:induction false} DeleteApartRun(L: Layout, s: State, run: seq<Step>, e: Uuid, x: Key, T: nat)
    requires L.Valid() && Legal(L, s, run) && e in s.used && e !in s.deleters
    ensures Legal(L, WithDelete(s, e, x, T), run)
    ensures After(L, WithDelete(s, e, x, T), run) == WithDelete(After(L, s, run), e, x, T)
    decreases run
  {
    hide Enabled, Apply, WithDelete;
    if run != [] {
      DeleteApart(L, s, run[0], e, x, T);
      DeleteApartRun(L, Apply(L, s, run[0]), run[1..], e, x, T);
    }
  }

  /** Right after the list is cleared, every read that registered with it has lost its key. */
  lemma ClearedStops(L: Layout, s: State, x: Key, tombstone: bool, tombId: Uuid, r: Uuid)
    requires L.Valid() && CollectionInv(L, s) && x in L.deps && r in s.fills && x in s.fills[r].deps && HasRegistered(s.fills[r])
    ensures !Occupies(Apply(L, s, OtherClear(x, tombstone, tombId)), s.fills[r].col, r)
  {
    hide DepKeysOk, ColOk, ClearOk, BlockOk;
    var t := Apply(L, s, OtherClear(x, tombstone, tombId));
    ClearEmpties(L, s, x, tombstone, tombId);
    assert FillOk(L, s, r) && FillListed(s, r);
    if Occupies(s, s.fills[r].col, r) {
      assert Listed(s, x, s.fills[r].col) && NameListed(s.cache, x, s.fills[r].col);
    }
  }

  lemma DeleteFits(L: Layout, s: State, e: Uuid, x: Key, T: nat)
    requires L.Valid() && CollectionInv(L, s) && x in L.deps && T < s.now
    requires forall r :: r in s.fills && x in s.fills[r].deps && HasFetched(s.fills[r]) && s.fills[r].fetchAt < T ==> Stopped(s, r)
    ensures CollectionInv(L, WithDelete(s, e, x, T))
  {
    var t := WithDelete(s, e, x, T);
    assert forall k, r :: Occupies(t, k, r) <==> Occupies(s, k, r);
    forall c | c in L.cols ensures ColOk(t, c) { assert ColOk(s, c); }
    forall r | r in t.fills ensures FillOk(L, t, r) && FillListed(t, r) {
      assert FillOk(L, s, r) && FillListed(s, r);
      assert forall d, c :: Listed(s, d, c) ==> Listed(t, d, c);
    }
    forall i | i in t.creators ensures ClearOk(t, i) { assert ClearOk(s, i); }
    forall i | i in t.deleters ensures BlockOk(t, i) {
      if i != e { assert BlockOk(s, i); }
      assert forall r :: r in s.fills && Stopped(s, r) ==> Stopped(t, r);
    }
  }

  /** The update e, which holds a lock of its own, has cleared the list of x. If no read that was
      answered before time T escapes, none is ever served. */
  lemma ReadAfterUpdate(L: Layout, s: State, e: Uuid, x: Key, tombstone: bool, tombId: Uuid, T: nat, more: seq<Step>)
    requires L.Valid() && CollectionInv(L, s) && x in L.deps && e in s.used && e !in s.deleters && T <= s.now
    requires var c := Apply(L, s, OtherClear(x, tombstone, tombId));
      (forall r :: !Escapes(c, x, T, r)) && Legal(L, c, more)
    ensures !ServesOld(L, After(L, Apply(L, s, OtherClear(x, tombstone, tombId)), more), x, T)
  {
    var c := Apply(L, s, OtherClear(x, tombstone, tombId));
    OneStep(L, s, OtherClear(x, tombstone, tombId));
    forall r | r in c.fills && x in c.fills[r].deps && HasFetched(c.fills[r]) && c.fills[r].fetchAt < T ensures Stopped(c, r) {
      if HasRegistered(c.fills[r]) { ClearedStops(L, s, x, tombstone, tombId, r); } else { assert !Escapes(c, x, T, r); }
    }
    DeleteFits(L, c, e, x, T);
    DeleteApartRun(L, c, more, e, x, T);
    Run(L, WithDelete(c, e, x, T), more);
    NothingOld(L, After(L, c, more), e, x, T);
  }

  lemma NeverServesOld(L: Layout, s: State, e: Uuid, x: Key, tombstone: bool, tombId: Uuid, T: nat)
    requires L.Valid() && CollectionInv(L, s) && x in L.deps && e in s.used && e !in s.deleters && T <= s.now
    requires forall r :: !Escapes(Apply(L, s, OtherClear(x, tombstone, tombId)), x, T, r)
    ensures !EverServesOld(L, Apply(L, s, OtherClear(x, tombstone, tombId)), x, T)
  {
    var clear := OtherClear(x, tombstone, tombId);
    assert Enabled(L, s, clear);
    hide CollectionInv, Apply, Enabled, ServesOld, Escapes;
    var c := Apply(L, s, clear);
    forall more | Legal(L, c, more) ensures !ServesOld(L, After(L, c, more), x, T) {
      ReadAfterUpdate(L, s, e, x, tombstone, tombId, T, more);
    }
  }

  lemma NothingOld(L: Layout, t: State, e: Uuid, x: Key, T: nat)
    requires L.Valid() && CollectionInv(L, WithDelete(t, e, x, T))
    ensures !ServesOld(L, t, x, T)
  {
    var d := WithDelete(t, e, x, T);
    assert BlockOk(d, e);
    forall k | k in L.cols ensures !Serves(L, t, x, T, k) { assert ColOk(d, k); }
  }

  // ----- If one does -----

  /** It registers and installs, and what it installs was fetched before T. */
  lemma EscapeServes(L: Layout, c: State, x: Key, T: nat, r: Uuid)
    requires L.Valid() && CollectionInv(L, c) && Escapes(c, x, T, r)
    ensures var run := [FillRegister(r), FillInstall(r)];
      Legal(L, c, run) && ServesOld(L, After(L, c, run), x, T)
    ensures EverServesOld(L, c, x, T)
  {
    var m := Apply(L, c, FillRegister(r));
    EscapeRegisters(L, c, x, T, r);
    RegisteredServes(L, m, x, T, r);
    hide CollectionInv, ServesOld, Escapes;
    var t, run := Apply(L, m, FillInstall(r)), [FillRegister(r), FillInstall(r)];
    assert run[1..] == [FillInstall(r)] && run[1..][1..] == [];
    assert Legal(L, t, []) && Legal(L, m, run[1..]);
    assert After(L, m, run[1..]) == t;
  }

  lemma EscapeRegisters(L: Layout, c: State, x: Key, T: nat, r: Uuid)
    requires L.Valid() && CollectionInv(L, c) && Escapes(c, x, T, r)
    ensures var m, f := Apply(L, c, FillRegister(r)), c.fills[r];
      && r in m.fills && m.fills[r] == f.(phase := Registered) && f.col in L.cols
      && At(m.cache, f.col) == Some(LockOf(Held(ReadLock, r)))
  {
    var f := c.fills[r];
    assert FillOk(L, c, r);
    hide CollectionInv, AddAll, Stopped;
    assert Occupies(c, f.col, r) && forall y :: y in f.deps && y in c.cache ==> !c.cache[y].Tombstone? by {
      assert !Stopped(c, r);
      StoppedIff(c, r);
    }
    Unrefused(c.cache, NonEmpty(f.deps), NonEmpty([f.col]));
    assert NonEmpty([f.col]) == [f.col] by { assert [f.col][..0] == []; }
    AddAllGrows(c.cache, NonEmpty(f.deps), [f.col]);
  }

  lemma StoppedIff(s: State, r: Uuid)
    requires r in s.fills && s.fills[r].phase == Fetched
    ensures !Stopped(s, r) <==>
      Occupies(s, s.fills[r].col, r) && forall y :: y in s.fills[r].deps && y in s.cache ==> !s.cache[y].Tombstone?
  {
  }

  lemma RegisteredServes(L: Layout, m: State, x: Key, T: nat, r: Uuid)
    requires L.Valid() && r in m.fills && m.fills[r].phase == Registered && m.fills[r].col in L.cols
    requires x in m.fills[r].deps && m.fills[r].fetchAt < T && At(m.cache, m.fills[r].col) == Some(LockOf(Held(ReadLock, r)))
    ensures ServesOld(L, Apply(L, m, FillInstall(r)), x, T)
  {
    var f := m.fills[r];
    InstallEffect(m.cache, f.col, f.text, Held(ReadLock, r));
    hide SetValue;
    assert Serves(L, Apply(L, m, FillInstall(r)), x, T, f.col);
  }

  lemma {:induction false} Unrefused(m: Cache, dkeys: seq<Key>, names: seq<Key>)
    requires forall d :: d in dkeys && d in m ==> !m[d].Tombstone?
    ensures !AddAll(m, dkeys, names).error
    decreases |dkeys|
  {
    if dkeys != [] {
      Unrefused(m, dkeys[..|dkeys| - 1], names);
      AddAllGrows(m, dkeys[..|dkeys| - 1], names);
    }
  }

  // ----- The theorem -----

  /** For every reachable state in which an update that holds a lock clears the list of its item,
      and every time T up to then, the server's commit among them: some run from there serves a
      dependent collection fetched before T if and only if right after the clear some read that
      was answered before T escapes. */
  lemma ReadAfterUpdateIff(L: Layout, s: State, run: seq<Step>, e: Uuid, x: Key, tombstone: bool, tombId: Uuid, T: nat)
    requires L.Valid() && Init(s) && Legal(L, s, run)
    requires var m := After(L, s, run); x in L.deps && e in m.used && e !in m.deleters && T <= m.now
    ensures var c := Apply(L, After(L, s, run), OtherClear(x, tombstone, tombId));
      EverServesOld(L, c, x, T) <==> exists r :: Escapes(c, x, T, r)
  {
    var m := After(L, s, run);
    Run(L, s, run);
    var clear := OtherClear(x, tombstone, tombId);
    assert Enabled(L, m, clear);
    hide CollectionInv, Apply, Enabled, Init, Legal, After, EverServesOld, Escapes;
    var c := Apply(L, m, clear);
    OneStep(L, m, clear);
    if r :| Escapes(c, x, T, r) {
      EscapeServes(L, c, x, T, r);
    } else {
      NeverServesOld(L, m, e, x, tombstone, tombId, T);
    }
  }

  // ----- A run in which it happens -----

  const NOTHING_YET := State(map[], map[], map[], map[], map[], {}, 0)

  /** A read misses and is answered, and an update takes the lock of its item. */
  lemma ReadThenUpdate(L: Layout, r: Uuid, c: Key, x: Key, e: Uuid, p: Key, text: string) returns (m: State)
    requires L.Valid() && c in L.cols && x in L.deps && p !in L.deps && p !in L.cols && p != "" && r != e
    ensures var run := [FillLock(r, c), FillFetch(r, text, [x]), OtherLock(e, Update, [p])];
      Legal(L, NOTHING_YET, run) && After(L, NOTHING_YET, run) == m
    ensures m.now == 3 && e in m.used && m.deleters == map[] && m.fills == map[r := Fill(c, Fetched, [x], text, 1)]
    ensures At(m.cache, c) == Some(LockOf(Held(ReadLock, r))) && x !in m.cache
  {
    var s1 := Apply(L, NOTHING_YET, FillLock(r, c));
    var s2 := Apply(L, s1, FillFetch(r, text, [x]));
    var lock := OtherLock(e, Update, [p]);
    ReadAnswered(L, r, c, x, text);
    UpdateLocks(L, s2, c, x, e, p);
    hide *;
    m := Apply(L, s2, lock);
    ThreeSteps(L, NOTHING_YET, FillLock(r, c), FillFetch(r, text, [x]), lock);
  }

  lemma ReadAnswered(L: Layout, r: Uuid, c: Key, x: Key, text: string)
    requires L.Valid() && c in L.cols && x in L.deps
    ensures Enabled(L, NOTHING_YET, FillLock(r, c))
    ensures Enabled(L, Apply(L, NOTHING_YET, FillLock(r, c)), FillFetch(r, text, [x]))
    ensures Apply(L, Apply(L, NOTHING_YET, FillLock(r, c)), FillFetch(r, text, [x])) ==
            State(map[c := LockOf(Held(ReadLock, r))], map[r := Fill(c, Fetched, [x], text, 1)], map[], map[], map[], {r}, 2)
  {
    hide WriteSentinel, SetValue, ReleaseSentinel, DeleteValue, Flush, ClearDependencies, AddDependency;
  }

  lemma UpdateLocks(L: Layout, s: State, c: Key, x: Key, e: Uuid, p: Key)
    requires L.Valid() && c in L.cols && x in L.deps && p !in L.deps && p !in L.cols && e !in s.used
    requires s.cache.Keys == {c}
    ensures Enabled(L, s, OtherLock(e, Update, [p]))
    ensures var m := Apply(L, s, OtherLock(e, Update, [p]));
      && m == s.(now := s.now + 1, used := s.used + {e}, cache := m.cache)
      && At(m.cache, c) == At(s.cache, c) && x !in m.cache
  {
    hide WriteSentinel;
    LockLeavesOthers(s.cache, Update, [p], e, c);
    LockLeavesOthers(s.cache, Update, [p], e, x);
  }

  lemma ThreeSteps(L: Layout, s: State, a: Step, b: Step, c: Step)
    requires L.Valid() && Enabled(L, s, a) && Enabled(L, Apply(L, s, a), b) && Enabled(L, Apply(L, Apply(L, s, a), b), c)
    ensures Legal(L, s, [a, b, c]) && After(L, s, [a, b, c]) == Apply(L, Apply(L, Apply(L, s, a), b), c)
  {
    hide Apply, Enabled;
    var s1, s2, s3 := Apply(L, s, a), Apply(L, Apply(L, s, a), b), Apply(L, Apply(L, Apply(L, s, a), b), c);
    assert [a, b, c][1..] == [b, c] && [b, c][1..] == [c] && [c][1..] == [];
    assert Legal(L, s3, []) && Legal(L, s2, [c]) && Legal(L, s1, [b, c]);
    assert After(L, s2, [c]) == s3 && After(L, s1, [b, c]) == s3;
  }

  /** Read, update, serve: the answer of the read comes before the update has its lock, the read
      registers after the list was cleared, and the cache serves what was there before the update,
      which committed at time 2 or at any time up to the clear. */
  lemma OldListServed(L: Layout, r: Uuid, c: Key, x: Key, e: Uuid, p: Key, text: string, tombId: Uuid)
    requires L.Valid() && c in L.cols && x in L.deps && p !in L.deps && p !in L.cols && p != "" && r != e
    ensures var run := [FillLock(r, c), FillFetch(r, text, [x]), OtherLock(e, Update, [p]),
                        OtherClear(x, false, tombId), FillRegister(r), FillInstall(r)];
      Init(NOTHING_YET) && Legal(L, NOTHING_YET, run) && ServesOld(L, After(L, NOTHING_YET, run), x, 2)
  {
    var m := ReadThenUpdate(L, r, c, x, e, p, text);
    var first := [FillLock(r, c), FillFetch(r, text, [x]), OtherLock(e, Update, [p])];
    var clear, last := OtherClear(x, false, tombId), [FillRegister(r), FillInstall(r)];
    StillOnItsWay(L, m, r, c, x, text, tombId);
    StartsEmpty(L);
    hide *;
    EscapeGoesOn(L, NOTHING_YET, first, clear, x, 2, r);
    SixSteps(FillLock(r, c), FillFetch(r, text, [x]), OtherLock(e, Update, [p]), clear, FillRegister(r), FillInstall(r));
  }

  lemma SixSteps(a: Step, b: Step, c: Step, d: Step, e: Step, f: Step)
    ensures [a, b, c] + ([d] + [e, f]) == [a, b, c, d, e, f]
  {
  }

  lemma EscapeGoesOn(L: Layout, s: State, first: seq<Step>, clear: Step, x: Key, T: nat, r: Uuid)
    requires L.Valid() && CollectionInv(L, s) && Legal(L, s, first) && Enabled(L, After(L, s, first), clear)
    requires Escapes(Apply(L, After(L, s, first), clear), x, T, r)
    ensures var run := first + ([clear] + [FillRegister(r), FillInstall(r)]);
      Legal(L, s, run) && ServesOld(L, After(L, s, run), x, T)
  {
    hide Apply, Enabled, ServesOld, Escapes, CollectionInv;
    var m, last := After(L, s, first), [FillRegister(r), FillInstall(r)];
    Run(L, s, first);
    OneStep(L, m, clear);
    EscapeServes(L, Apply(L, m, clear), x, T, r);
    assert ([clear] + last)[1..] == last;
    LegalConcat(L, s, first, [clear] + last);
  }

  lemma StillOnItsWay(L: Layout, m: State, r: Uuid, c: Key, x: Key, text: string, tombId: Uuid)
    requires L.Valid() && c in L.cols && x in L.deps && m.fills == map[r := Fill(c, Fetched, [x], text, 1)]
    requires At(m.cache, c) == Some(LockOf(Held(ReadLock, r))) && x !in m.cache
    ensures Enabled(L, m, OtherClear(x, false, tombId))
    ensures Escapes(Apply(L, m, OtherClear(x, false, tombId)), x, 2, r)
  {
  }

  lemma StartsEmpty(L: Layout)
    requires L.Valid()
    ensures Init(NOTHING_YET) && CollectionInv(L, NOTHING_YET)
  {
  }
}
