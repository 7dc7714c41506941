/** What a provider call does to one key. The single-item protocol is about the item's primary
    key, which is the first key an operation locks and the key its SetValue tests. */
module SlotOps {
  import opened Options
  import opened Sentinels
  import opened CacheOps

  type Slot = Option<Entry>

  predicate Grants(slot: Slot, s: Sentinel) {
    !(slot.Some? && IsSentinel(slot.value) && !CanSetSentinelGivenCurrVal(slot.value, s))
  }

  function LockSlot(slot: Slot, s: Sentinel): Slot
    requires s.Held?
  {
    if Grants(slot, s) then Some(LockOf(s)) else slot
  }

  function ReleaseSlot(slot: Slot, s: Sentinel): Slot {
    if s.Held? && slot == Some(LockOf(s)) then None else slot
  }

  function Decide(slot: Slot, val: string, s: Sentinel): Outcome {
    if slot.None? || slot.value.Names? then Ignore else CanSetValue(slot.value, val, s)
  }

  function CommitSlot(slot: Slot, val: string, s: Sentinel): Slot {
    match Decide(slot, val, s)
    case SetIt => Some(Plain(val))
    case ClearIt => None
    case ConflictIt => Some(slot.value.(conflicts := slot.value.conflicts + [s.id]))
    case Ignore => slot
  }

  lemma {:induction false} SweepAt(m: Cache, stype: SentinelType, keys: seq<Key>, k: Key)
    requires keys != []
    ensures var r := Sweep(m, stype, keys);
      && (At(r.cache, k) == At(m, k) || (k in m && m[k].Names?))
      && (k in keys && k !in r.kept ==> k in m && (m[k].Tombstone? || m[k].Names?))
      && (k in r.kept && k in m && m[k].Tombstone? ==> k == keys[0])
  {
    if |keys| > 1 {
      SweepAt(m, stype, keys[..|keys| - 1], k);
      assert keys == keys[..|keys| - 1] + [keys[|keys| - 1]];
    }
  }

  /** What taking a lock does to any key that holds no dependency list. */
  lemma WriteSentinelAt(m: Cache, stype: SentinelType, keysIn: seq<Key>, id: Uuid, k: Key)
    requires k in m ==> !m[k].Names?
    ensures var r, s := WriteSentinel(m, stype, keysIn, id), Held(KindOf(stype), id);
      var first := NonEmpty(keysIn);
      && (r.sentinel.NoLock? ==> r.cache == m)
      && (r.sentinel.Held? ==> r.sentinel == s && first != [] && Grants(At(m, first[0]), s))
      && (r.sentinel.NoLock? && first != [] ==> !Grants(At(m, first[0]), s))
      && (r.sentinel.Held? ==> At(r.cache, first[0]) == Some(LockOf(s)))
      && (r.sentinel.Held? && k in first && k != first[0] ==>
            At(r.cache, k) == if k in m && m[k].Tombstone? then Some(m[k]) else Some(LockOf(s)))
      && (k !in first ==> At(r.cache, k) == At(m, k))
  {
    hide NonEmpty, Sweep, CanSetSentinelGivenCurrVal;
    var keys := NonEmpty(keysIn);
    if keys != [] {
      SweepAt(m, stype, keys, k);
      SweepAt(m, stype, keys, keys[0]);
    }
  }

  lemma NonEmptyHead(keys: seq<Key>)
    requires keys != [] && keys[0] != ""
    ensures NonEmpty(keys) != [] && NonEmpty(keys)[0] == keys[0]
    decreases |keys|
  {
    if |keys| > 1 { NonEmptyHead(keys[..|keys| - 1]); }
  }

  /** The provider's WriteSentinel, seen from the primary key, is LockSlot. */
  lemma LockRefines(m: Cache, stype: SentinelType, keys: seq<Key>, id: Uuid)
    requires keys != [] && keys[0] != ""
    requires keys[0] in m ==> !m[keys[0]].Names?
    ensures var r, s := WriteSentinel(m, stype, keys, id), Held(KindOf(stype), id);
      && At(r.cache, keys[0]) == LockSlot(At(m, keys[0]), s)
      && r.sentinel == (if Grants(At(m, keys[0]), s) then s else NoLock)
  {
    NonEmptyHead(keys);
    WriteSentinelAt(m, stype, keys, id, keys[0]);
  }

  /** SetValue and ReleaseSentinel, seen from the primary key, are CommitSlot and ReleaseSlot. */
  lemma CommitRefines(m: Cache, p: Key, keys: seq<Key>, val: string, s: Sentinel)
    requires p != "" && p in keys
    ensures At(SetValue(m, p, keys, val, s).cache, p) == CommitSlot(At(m, p), val, s)
    ensures SetValue(m, p, keys, val, s).set_ <==> Decide(At(m, p), val, s) == SetIt
    ensures At(ReleaseSentinel(m, keys, s), p) == ReleaseSlot(At(m, p), s)
  {
    assert p in NonEmpty(keys);
  }
}
