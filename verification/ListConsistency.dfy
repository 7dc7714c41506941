/** Every cached item is the server's current item, in every state of every run of the list
    protocol, even half way through a mutation. */
module ListConsistency {
  import opened Options
  import opened Sentinels
  import opened CacheOps
  import opened SlotOps
  import opened ListProtocol

  /** SetValue by a holder that is not a write lock: all of its keys or nothing. */
  lemma SetValueAt(m: Cache, lkey: Key, keys: seq<Key>, val: string, s: Sentinel, k: Key)
    requires lkey != "" && s.Held?
    ensures var r := SetValue(m, lkey, keys, val, s).cache;
      && (At(m, lkey) == Some(LockOf(s)) ==> At(r, k) == if k in keys && k != "" then Some(Plain(val)) else At(m, k))
      && (At(m, lkey) != Some(LockOf(s)) && s.kind != WriteLock ==> r == m)
  {
  }

  /** What a mutation's lock does to a primary key and to the global collection key. */
  lemma BegunKeys(L: Layout, s: State, id: Uuid, stype: SentinelType, key: Key, sk: seq<Key>)
    requires L.Valid() && ListInv(L, s) && Enabled(L, s, Begin(id, stype, key, sk))
    ensures var t := Apply(L, s, Begin(id, stype, key, sk));
      && t.clients[id].sentinel == Held(KindOf(stype), id)
      && MutationHolds(L, t, id) && GlobalOk(L, t)
      && forall k :: k in L.prim ==> PrimaryOk(L, t, k)
  {
    hide Sweep, SetAll, NonEmpty;
    var t := Apply(L, s, Begin(id, stype, key, sk));
    var keys := [key, L.global] + sk;
    NonEmptyHead(keys);
    assert PrimaryOk(L, s, key);
    assert keys[1] == L.global && L.global in keys;
    assert forall k :: k in keys ==> k == key || k == L.global || k in sk;
    WriteSentinelAt(s.cache, stype, keys, id, key);
    WriteSentinelAt(s.cache, stype, keys, id, L.global);
    forall k | k in L.prim ensures PrimaryOk(L, t, k) {
      assert PrimaryOk(L, s, k);
      WriteSentinelAt(s.cache, stype, keys, id, k);
    }
  }

  lemma BeginStep(L: Layout, s: State, id: Uuid, stype: SentinelType, key: Key, sk: seq<Key>)
    requires L.Valid() && ListInv(L, s) && Enabled(L, s, Begin(id, stype, key, sk))
    ensures ListInv(L, Apply(L, s, Begin(id, stype, key, sk)))
  {
    hide PrimaryOk, MutationHolds, GlobalOk, WriteSentinel;
    var t := Apply(L, s, Begin(id, stype, key, sk));
    BegunKeys(L, s, id, stype, key, sk);
    forall u | Active(t, u) ensures u == id { assert !Active(s, u); }
  }

  lemma CommitStep(L: Layout, s: State, id: Uuid, text: string)
    requires L.Valid() && ListInv(L, s) && Enabled(L, s, Commit(id, text))
    ensures ListInv(L, Apply(L, s, Commit(id, text)))
  {
    var t := Apply(L, s, Commit(id, text));
    assert Active(s, id) && MutationHolds(L, s, id);
    forall u | Active(t, u) ensures u == id { assert Active(s, u); }
    forall k | k in L.prim ensures PrimaryOk(L, t, k) {
      assert PrimaryOk(L, s, k);
      assert k != s.clients[id].key ==> Lookup(t.server, k) == Lookup(s.server, k);
    }
  }

  lemma SaveStep(L: Layout, s: State, id: Uuid, sk: seq<Key>)
    requires L.Valid() && ListInv(L, s) && Enabled(L, s, Save(id, sk))
    ensures ListInv(L, Apply(L, s, Save(id, sk)))
  {
    var t := Apply(L, s, Save(id, sk));
    var c := s.clients[id];
    assert Active(s, id) && MutationHolds(L, s, id);
    forall u | Active(t, u) ensures u == id { assert Active(s, u); }
    SetValueAt(s.cache, c.key, sk + [c.key], c.val.value, c.sentinel, L.global);
    forall k | k in L.prim ensures PrimaryOk(L, t, k) {
      assert PrimaryOk(L, s, k);
      SetValueAt(s.cache, c.key, sk + [c.key], c.val.value, c.sentinel, k);
    }
  }

  lemma LetGoStep(L: Layout, s: State, step: Step)
    requires L.Valid() && ListInv(L, s) && Enabled(L, s, step)
    requires step.Fail? || step.ClearCollections? || step.Release?
    ensures ListInv(L, Apply(L, s, step))
  {
    var t := Apply(L, s, step);
    assert Active(s, step.id) && MutationHolds(L, s, step.id);
    forall u | Active(t, u) ensures u == step.id && MutationHolds(L, t, u) { assert Active(s, u); }
    forall k | k in L.prim ensures PrimaryOk(L, t, k) {
      assert PrimaryOk(L, s, k);
    }
  }

  lemma ItemStep(L: Layout, s: State, step: Step)
    requires L.Valid() && ListInv(L, s) && Enabled(L, s, step)
    requires step.ItemMiss? || step.ItemFetch? || step.ItemSave?
    ensures ListInv(L, Apply(L, s, step))
  {
    var t := Apply(L, s, step);
    forall u | Active(t, u) ensures Active(s, u) && MutationHolds(L, t, u) {
      assert Active(s, u) && MutationHolds(L, s, u);
      ItemKeepsMutation(L, s, step, u);
    }
    forall k | k in L.prim ensures PrimaryOk(L, t, k) {
      assert PrimaryOk(L, s, k);
      if step.ItemSave? {
        var c := s.clients[step.id];
        assert PrimaryOk(L, s, c.key);
        SetValueAt(s.cache, c.key, step.sk + [c.key], c.val.value, Held(ReadLock, step.id), k);
      }
    }
    if step.ItemSave? {
      var c := s.clients[step.id];
      SetValueAt(s.cache, c.key, step.sk + [c.key], c.val.value, Held(ReadLock, step.id), L.global);
    }
  }

  lemma ItemKeepsMutation(L: Layout, s: State, step: Step, u: Uuid)
    requires L.Valid() && ListInv(L, s) && Enabled(L, s, step) && Active(s, u) && MutationHolds(L, s, u)
    requires step.ItemMiss? || step.ItemFetch? || step.ItemSave?
    ensures Active(Apply(L, s, step), u) && MutationHolds(L, Apply(L, s, step), u)
  {
    if step.ItemSave? {
      var c := s.clients[step.id];
      SetValueAt(s.cache, c.key, step.sk + [c.key], c.val.value, Held(ReadLock, step.id), s.clients[u].key);
      SetValueAt(s.cache, c.key, step.sk + [c.key], c.val.value, Held(ReadLock, step.id), L.global);
    }
  }

  lemma NoMutationUnderListLock(L: Layout, s: State)
    requires ListInv(L, s)
    requires L.global !in s.cache || s.cache[L.global].Plain? || (s.cache[L.global].Lock? && s.cache[L.global].kind == ReadLock)
    ensures Quiet(s)
  {
    assert forall id :: Active(s, id) ==> MutationHolds(L, s, id);
  }

  lemma ListFillStep(L: Layout, s: State, step: Step)
    requires L.Valid() && ListInv(L, s) && Enabled(L, s, step)
    requires step.ListSaveItem? || step.ListSave?
    ensures ListInv(L, Apply(L, s, step))
  {
    var t, mine := Apply(L, s, step), Held(ReadLock, step.id);
    var keys, text := if step.ListSave? then [step.colKey] else step.sk + [step.key],
                      if step.ListSave? then step.text else s.clients[step.id].snap[step.key];
    SetValueAt(s.cache, L.global, keys, text, mine, L.global);
    if At(s.cache, L.global) == Some(LockOf(mine)) {
      NoMutationUnderListLock(L, s);
      forall u ensures !Active(t, u) { assert !Active(s, u); }
      forall k | k in L.prim ensures PrimaryOk(L, t, k) {
        assert PrimaryOk(L, s, k);
        SetValueAt(s.cache, L.global, keys, text, mine, k);
      }
    } else {
      assert t == s;
    }
  }

  lemma ListStep(L: Layout, s: State, step: Step)
    requires L.Valid() && ListInv(L, s) && Enabled(L, s, step)
    requires step.ListMiss? || step.ListFetch? || step.ListRelease?
    ensures ListInv(L, Apply(L, s, step))
  {
    var t := Apply(L, s, step);
    forall u | Active(t, u) ensures Active(s, u) && MutationHolds(L, t, u) {
      assert Active(s, u) && MutationHolds(L, s, u);
    }
    forall k | k in L.prim ensures PrimaryOk(L, t, k) {
      assert PrimaryOk(L, s, k);
    }
  }

  lemma OutsideStep(L: Layout, s: State, step: Step)
    requires L.Valid() && ListInv(L, s) && Enabled(L, s, step)
    requires step.Drop? || step.Expire? || step.Elsewhere? || step.Refuse?
    ensures ListInv(L, Apply(L, s, step))
  {
    var t := Apply(L, s, step);
    forall u | Active(t, u) ensures Active(s, u) && MutationHolds(L, t, u) {
      assert Active(s, u) && MutationHolds(L, s, u);
    }
    forall k | k in L.prim ensures PrimaryOk(L, t, k) {
      assert PrimaryOk(L, s, k);
    }
  }

  lemma Step(L: Layout, s: State, step: Step)
    requires L.Valid() && ListInv(L, s) && Enabled(L, s, step)
    ensures ListInv(L, Apply(L, s, step))
  {
    match step
    case Begin(id, stype, key, sk) => BeginStep(L, s, id, stype, key, sk);
    case Commit(id, text) => CommitStep(L, s, id, text);
    case Save(id, sk) => SaveStep(L, s, id, sk);
    case Fail(_) => LetGoStep(L, s, step);
    case ClearCollections(_, _, _) => LetGoStep(L, s, step);
    case Release(_) => LetGoStep(L, s, step);
    case ItemMiss(_, _) => ItemStep(L, s, step);
    case ItemFetch(_) => ItemStep(L, s, step);
    case ItemSave(_, _) => ItemStep(L, s, step);
    case ListSaveItem(_, _, _) => ListFillStep(L, s, step);
    case ListSave(_, _, _) => ListFillStep(L, s, step);
    case ListMiss(_) => ListStep(L, s, step);
    case ListFetch(_, _) => ListStep(L, s, step);
    case ListRelease(_) => ListStep(L, s, step);
    case Refuse(_, _, _) => OutsideStep(L, s, step);
    case Drop(_) => OutsideStep(L, s, step);
    case Expire(_) => OutsideStep(L, s, step);
    case Elsewhere(_, _) => OutsideStep(L, s, step);
  }

  lemma {:induction false} Run(L: Layout, s: State, run: seq<Step>)
    requires L.Valid() && ListInv(L, s) && Legal(L, s, run)
    ensures ListInv(L, After(L, s, run))
    decreases run
  {
    if run != [] {
      Step(L, s, run[0]);
      Run(L, Apply(L, s, run[0]), run[1..]);
    }
  }

  /** Mutations one at a time, any number of item reads and list reads, evictions, failures, and
      tombstones after refused registrations: in every reachable state each plain primary-key value
      is the server's current item, and an empty, plain or read-locked collection key means that no
      mutation is in flight. */
  lemma ListReadsConsistent(L: Layout, s: State, run: seq<Step>)
    requires L.Valid() && Init(L, s) && Legal(L, s, run)
    ensures Fresh(L, After(L, s, run)) && ListsSafe(L, After(L, s, run))
  {
    assert ListInv(L, s);
    Run(L, s, run);
    var t := After(L, s, run);
    forall k | k in L.prim && k in t.cache && t.cache[k].Plain? ensures k in t.server && t.server[k] == t.cache[k].text {
      assert PrimaryOk(L, t, k);
    }
    if L.global !in t.cache || t.cache[L.global].Plain? || (t.cache[L.global].Lock? && t.cache[L.global].kind == ReadLock) {
      NoMutationUnderListLock(L, t);
    }
  }

  // ----- Keys that two items share -----

  /** Three steps that create the item at key, whatever its secondary keys are. */
  ghost predicate Creates(L: Layout, s: State, key: Key, sk: seq<Key>, id: Uuid, text: string, t: State)
    requires L.Valid()
  {
    && Possible(L, s, Begin(id, Create, key, sk))
    && var a := Apply(L, s, Begin(id, Create, key, sk));
       Possible(L, a, Commit(id, text))
       && var b := Apply(L, a, Commit(id, text));
          Possible(L, b, Save(id, sk)) && t == Apply(L, b, Save(id, sk))
  }

  /** The condition on secondary keys is needed: if the item at key has one that is another item's
      primary key or the collection's, creating it, in any initial state and with nobody else about,
      breaks what the theorem says. Either the other item is cached with a wrong value, or the
      collection key holds a value while the list is being changed. */
  lemma SharedKeyBreaks(L: Layout, s: State, key: Key, sk: seq<Key>, k: Key, id: Uuid, text: string)
    returns (t: State)
    requires L.Valid() && Init(L, s) && key in L.prim && k in sk && k != key && !L.Outside(k)
    requires k in L.prim ==> Lookup(s.server, k) != Some(text)
    ensures Creates(L, s, key, sk, id, text, t)
    ensures At(t.cache, k) == Some(Plain(text))
    ensures if k in L.prim then !Fresh(L, t) else !ListsSafe(L, t)
  {
    var a := Apply(L, s, Begin(id, Create, key, sk));
    BegunHolds(L, s, key, sk, id);
    var b := Apply(L, a, Commit(id, text));
    t := Apply(L, b, Save(id, sk));
    hide WriteSentinel;
    SetValueAt(b.cache, key, sk + [key], text, Held(WriteLock, id), k);
    assert Active(t, id);
  }

  lemma BegunHolds(L: Layout, s: State, key: Key, sk: seq<Key>, id: Uuid)
    requires L.Valid() && Init(L, s) && key in L.prim
    ensures Possible(L, s, Begin(id, Create, key, sk))
    ensures var a := Apply(L, s, Begin(id, Create, key, sk));
      && a.clients[id].sentinel == Held(WriteLock, id) && At(a.cache, key) == Some(LockOf(Held(WriteLock, id)))
      && a.server == s.server && a.clients.Keys == {id}
  {
    var keys := [key, L.global] + sk;
    NonEmptyHead(keys);
    assert keys[0] == key;
    hide Sweep, SetAll, NonEmpty;
    WriteSentinelAt(s.cache, Create, keys, id, key);
  }

  lemma ApartKeepsSafe(L: Layout, s: State, key: Key, sk: seq<Key>, id: Uuid, text: string, t: State)
    requires L.Valid() && Init(L, s) && key in L.prim && Apart(L, key, sk) && Creates(L, s, key, sk, id, text, t)
    ensures Fresh(L, t) && ListsSafe(L, t)
  {
    var a := Apply(L, s, Begin(id, Create, key, sk));
    var b := Apply(L, a, Commit(id, text));
    assert Tidy(L, s, Begin(id, Create, key, sk)) && Tidy(L, b, Save(id, sk));
    hide Apply, Possible, Tidy, Init, Fresh, ListsSafe;
    var run := [Begin(id, Create, key, sk), Commit(id, text), Save(id, sk)];
    assert run[1..] == [Commit(id, text), Save(id, sk)] && run[1..][1..] == [Save(id, sk)] && run[1..][1..][1..] == [];
    assert Tidy(L, a, Commit(id, text)) by { CommitTidy(L, a, id, text); }
    assert Legal(L, t, []) && Legal(L, b, run[1..][1..]) && Legal(L, a, run[1..]) && Legal(L, s, run);
    assert After(L, b, run[1..][1..]) == t;
    assert After(L, a, run[1..]) == t;
    ListReadsConsistent(L, s, run);
  }

  lemma CommitTidy(L: Layout, s: State, id: Uuid, text: string)
    ensures Tidy(L, s, Commit(id, text))
  {
  }

  /** The secondary keys an item may have: from every initial state, creating the item is safe
      whatever its value if and only if none of them is another item's primary key or the
      collection's key. */
  lemma SecondaryKeysIff(L: Layout, s: State, key: Key, sk: seq<Key>, id: Uuid)
    requires L.Valid() && Init(L, s) && key in L.prim
    ensures (forall text: string, t :: Creates(L, s, key, sk, id, text, t) ==> Fresh(L, t) && ListsSafe(L, t)) <==> Apart(L, key, sk)
  {
    hide Creates, Fresh, ListsSafe, Init;
    if Apart(L, key, sk) {
      forall text: string, t | Creates(L, s, key, sk, id, text, t) ensures Fresh(L, t) && ListsSafe(L, t) {
        ApartKeepsSafe(L, s, key, sk, id, text, t);
      }
    } else {
      var k :| k in sk && k != key && !L.Outside(k);
      var text := if k in s.server && s.server[k] == "" then "x" else "";
      var t := SharedKeyBreaks(L, s, key, sk, k, id, text);
      assert Creates(L, s, key, sk, id, text, t);
    }
  }
}
