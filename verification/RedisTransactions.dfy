/** The Redis provider's optimistic transactions. Between any two commands of a call, other clients
    may write anything to the server; EXEC is refused when they wrote to a watched key. */
module RedisTransactions {
  import opened Options
  import opened Sentinels
  import Ops = CacheOps
  import opened CacheOps

  const MAX_CONFLICT_RETRIES := 15

  predicate Changed(a: Cache, b: Cache, k: Key) { At(a, k) != At(b, k) }

  /** The server as one connection sees it: touched is what was written since its last WATCH.
      history holds every state of the server, and commits says which steps this connection made;
      foreign holds what the others wrote, moment by moment. */
  class Connection {
    var data: Cache
    var touched: set<Key>
    ghost var history: seq<Cache>
    ghost var commits: seq<nat>
    ghost var foreign: seq<set<Key>>

    ghost predicate Valid()
      reads this
    {
      history != [] && history[|history| - 1] == data
    }

    constructor (data: Cache)
      ensures Valid() && this.data == data && commits == [] && foreign == []
    {
      this.data, touched := data, {};
      history, commits, foreign := [data], [], [];
    }

    /** Whatever the other clients do, and whatever expires, in the meantime. */
    method Interfere() returns (ghost written: set<Key>)
      requires Valid()
      modifies `data, `touched, `history, `foreign
      ensures Valid() && history == old(history) + [data]
      ensures foreign == old(foreign) + [written] && touched == old(touched) + written
      ensures forall k :: Changed(old(data), data, k) ==> k in touched
    {
      var next: Cache := *;
      var more: set<Key> := *;
      more := more + (set k | k in data.Keys + next.Keys && Changed(data, next, k));
      written := more;
      touched := touched + more;
      data := next;
      history := history + [data];
      foreign := foreign + [written];
    }

    method Watch()
      requires Valid()
      modifies `touched
      ensures touched == {}
    {
      touched := {};
    }

    method Get(key: Key) returns (value: Option<Entry>)
      requires Valid()
      ensures value == At(data, key)
    {
      value := At(data, key);
    }

    /** MSET (with a value) or DEL (without one) of the keys, unless a watched key was written. */
    method Exec(watched: seq<Key>, keys: seq<Key>, value: Option<Entry>) returns (ok: bool)
      requires Valid()
      modifies `data, `history, `commits
      ensures Valid() && (ok <==> forall k :: k in watched ==> k !in touched)
      ensures if ok then && data == (if value.Some? then SetAll(old(data), keys, value.value) else DropAll(old(data), keys))
                         && history == old(history) + [data] && commits == old(commits) + [|old(history)| - 1]
              else data == old(data) && history == old(history) && commits == old(commits)
    {
      ok := forall k :: k in watched ==> k !in touched;
      if ok {
        commits := commits + [|history| - 1];
        data := if value.Some? then SetAll(data, keys, value.value) else DropAll(data, keys);
        history := history + [data];
      }
    }
  }

  /** How often others wrote to one of the keys. */
  ghost function Writes(foreign: seq<set<Key>>, keys: set<Key>): nat {
    if foreign == [] then 0
    else Writes(foreign[..|foreign| - 1], keys) + if foreign[|foreign| - 1] !! keys then 0 else 1
  }

  lemma OneMore(foreign: seq<set<Key>>, written: set<Key>, keys: set<Key>)
    ensures Writes(foreign + [written], keys) == Writes(foreign, keys) + if written !! keys then 0 else 1
  {
    assert (foreign + [written])[..|foreign|] == foreign;
  }

  /** Empty keys are dropped; a key without the provider's prefix fails the call. */
  predicate Prefixed(keys: seq<Key>, prefix: string) {
    forall k :: k in keys && k != "" ==> HasPrefix(k, prefix)
  }

  /** What a transaction did: nothing at all, with the answers of the atomic operation on some state
      the server went through during the call; or one step, from such a state to the one that the
      atomic operation makes of it. */
  ghost predicate ActedAt(history: seq<Cache>, commits0: seq<nat>, commits1: seq<nat>, i: nat, after: Cache) {
    && i < |history|
    && if commits1 == commits0 then after == history[i]
       else commits1 == commits0 + [i] && i + 1 < |history| && history[i + 1] == after
  }

  class RedisClientCacheProvider {
    const rc: Connection
    const prefix: string
    const readOnly: bool

    constructor (rc: Connection, prefix: string, readOnly: bool)
      ensures this.rc == rc && this.prefix == prefix && this.readOnly == readOnly
    {
      this.rc, this.prefix, this.readOnly := rc, prefix, readOnly;
    }

    /** One attempt: WATCH, GET, and the commands it decides on under EXEC. Nothing is sent when
        there is nothing to do, and then the answers are those of the moment of the GET. */
    method SetTransaction(lkey: Key, ghost keysIn: seq<Key>, keys: seq<Key>, val: string, s: Sentinel)
      returns (ok: bool, valueSet: bool, conflictDetected: bool, ghost i: nat)
      requires rc.Valid() && keys == NonEmpty(keysIn) && keys != [] && lkey != ""
      modifies rc
      ensures rc.Valid() && old(rc.history) <= rc.history && |old(rc.history)| <= i + 1 && i < |rc.history|
      ensures Writes(rc.foreign, {lkey}) >= Writes(old(rc.foreign), {lkey}) + if ok then 0 else 1
      ensures !ok ==> rc.commits == old(rc.commits)
      ensures ok ==>
        var r := Ops.SetValue(rc.history[i], lkey, keysIn, val, s);
        && !r.error && valueSet == r.set_ && conflictDetected == r.conflict
        && ActedAt(rc.history, old(rc.commits), rc.commits, i, r.cache)
    {
      hide Ops.SetValue, Sentinels.CanSetValue, NonEmpty, SetAll, DropAll, Writes;
      rc.Watch();
      ghost var before := rc.foreign;
      ghost var first := rc.Interfere();
      OneMore(before, first, {lkey});
      i := |rc.history| - 1;
      var cV := rc.Get(lkey);
      if cV.None? || cV.value.Names? {
        NothingToSet(rc.data, lkey, keysIn, val, s);
        return true, false, false, i;
      }
      ghost var read := rc.data;
      var outcome := CanSetValue(cV.value, val, s);
      SetValueUnwatched(read, read, lkey, keysIn, val, s);
      if outcome.Ignore? {
        return true, false, true, i;
      }
      var value := match outcome
        case SetIt => Some(Plain(val))
        case ConflictIt => Some(cV.value.(conflicts := cV.value.conflicts + [s.id]))
        case _ => None;
      ghost var second := rc.Interfere();
      OneMore(before + [first], second, {lkey});
      i := |rc.history| - 1;
      assert lkey in [lkey] && (lkey in rc.touched || !Changed(read, rc.data, lkey));
      ok := rc.Exec([lkey], keys, value);
      if ok {
        SetValueUnwatched(read, rc.history[i], lkey, keysIn, val, s);
      }
      return ok, outcome.SetIt?, outcome.ConflictIt?, i;
    }

    method SetValue(lkey: Key, keysToSet: seq<Key>, val: string, s: Sentinel)
      returns (set_: bool, conflict: bool, error: bool, ghost i: nat)
      requires rc.Valid()
      modifies rc
      ensures rc.Valid() && old(rc.history) <= rc.history
      ensures error || readOnly ==> rc.commits == old(rc.commits) && !set_ && !conflict
      ensures var callable := NonEmpty(keysToSet) != [] && lkey != "" && Prefixed(keysToSet + [lkey], prefix);
        && (!error ==> callable)
        && (error && callable ==>
              !readOnly && Writes(rc.foreign, {lkey}) >= Writes(old(rc.foreign), {lkey}) + MAX_CONFLICT_RETRIES)
      ensures !error && !readOnly ==>
        && |old(rc.history)| <= i + 1 && i < |rc.history|
        && var r := Ops.SetValue(rc.history[i], lkey, keysToSet, val, s);
           && !r.error && set_ == r.set_ && conflict == r.conflict
           && ActedAt(rc.history, old(rc.commits), rc.commits, i, r.cache)
    {
      hide Ops.SetValue, Prefixed, ActedAt, NonEmpty, Writes;
      i := 0;
      var keys := NonEmpty(keysToSet);
      if !Prefixed(keysToSet + [lkey], prefix) || keys == [] || lkey == "" {
        return false, false, true, i;
      }
      if readOnly {
        return false, false, false, i;
      }
      for attempt := 0 to MAX_CONFLICT_RETRIES
        invariant rc.Valid() && old(rc.history) <= rc.history && rc.commits == old(rc.commits)
        invariant Writes(rc.foreign, {lkey}) >= Writes(old(rc.foreign), {lkey}) + attempt
      {
        ghost var before := rc.foreign;
        ghost var written := rc.Interfere();
        OneMore(before, written, {lkey});
        var ok;
        ok, set_, conflict, i := SetTransaction(lkey, keysToSet, keys, val, s);
        if ok {
          return set_, conflict, false, i;
        }
      }
      return false, false, true, i;
    }

    /** One attempt to delete the keys that hold the sentinel. */
    method ReleaseTransaction(ghost keysIn: seq<Key>, keys: seq<Key>, s: Sentinel) returns (ok: bool, ghost i: nat)
      requires rc.Valid() && keys == NonEmpty(keysIn)
      modifies rc
      ensures rc.Valid() && old(rc.history) <= rc.history && |old(rc.history)| <= i + 1 && i < |rc.history|
      ensures var watched := set k | k in keys;
        Writes(rc.foreign, watched) >= Writes(old(rc.foreign), watched) + if ok then 0 else 1
      ensures !ok ==> rc.commits == old(rc.commits)
      ensures ok ==> ActedAt(rc.history, old(rc.commits), rc.commits, i, Released(rc.history[i], keysIn, s))
    {
      hide Holders, Released, NonEmpty, Writes;
      ghost var watched := set k | k in keys;
      rc.Watch();
      ghost var before := rc.foreign;
      ghost var first := rc.Interfere();
      OneMore(before, first, watched);
      i := |rc.history| - 1;
      ghost var read := rc.data;
      var keysToClear := Holders(rc.data, keys, s);
      if keysToClear == [] {
        ReleasedUnwatched(read, read, keysIn, s);
        NothingDropped(read);
        return true, i;
      }
      ghost var second := rc.Interfere();
      OneMore(before + [first], second, watched);
      i := |rc.history| - 1;
      ok := rc.Exec(keys, keysToClear, None);
      if ok {
        ReleasedUnwatched(read, rc.history[i], keysIn, s);
      }
    }

    method ReleaseSentinel(keysIn: seq<Key>, s: Sentinel) returns (done: bool, ghost i: nat)
      requires rc.Valid()
      modifies rc
      ensures rc.Valid() && old(rc.history) <= rc.history
      ensures !done ==> rc.commits == old(rc.commits)
      ensures var callable, watched := NonEmpty(keysIn) != [] && Prefixed(keysIn, prefix) && !readOnly, set k | k in NonEmpty(keysIn);
        && (done ==> callable)
        && (!done && callable ==> Writes(rc.foreign, watched) >= Writes(old(rc.foreign), watched) + MAX_CONFLICT_RETRIES)
      ensures done ==>
        && |old(rc.history)| <= i + 1 && i < |rc.history|
        && ActedAt(rc.history, old(rc.commits), rc.commits, i, Released(rc.history[i], keysIn, s))
    {
      hide Released, Prefixed, ActedAt, NonEmpty, Writes;
      done, i := false, 0;
      var keys := NonEmpty(keysIn);
      ghost var watched := set k | k in keys;
      if !Prefixed(keysIn, prefix) || keys == [] || readOnly {
        return;
      }
      for attempt := 0 to MAX_CONFLICT_RETRIES
        invariant rc.Valid() && old(rc.history) <= rc.history && rc.commits == old(rc.commits)
        invariant Writes(rc.foreign, watched) >= Writes(old(rc.foreign), watched) + attempt
      {
        ghost var before := rc.foreign;
        ghost var written := rc.Interfere();
        OneMore(before, written, watched);
        done, i := ReleaseTransaction(keysIn, keys, s);
        if done {
          return;
        }
      }
    }
  }

  lemma NothingDropped(m: Cache)
    ensures DropAll(m, []) == m
  {
  }

  /** The text a key must hold to be cleared. The empty sentinel is the empty string. */
  function HeldText(s: Sentinel): Entry { if s.Held? then LockOf(s) else Plain("") }

  /** MGET, and the keys among them that hold the sentinel. */
  function Holders(m: Cache, keys: seq<Key>, s: Sentinel): seq<Key> {
    if keys == [] then []
    else
      var last := keys[|keys| - 1];
      Holders(m, keys[..|keys| - 1], s) + if At(m, last) == Some(HeldText(s)) then [last] else []
  }

  lemma {:induction false} HoldersExactly(m: Cache, keys: seq<Key>, s: Sentinel)
    ensures forall k :: k in Holders(m, keys, s) <==> k in keys && At(m, k) == Some(HeldText(s))
  {
    if keys != [] {
      HoldersExactly(m, keys[..|keys| - 1], s);
    }
  }

  /** The atomic operation: exactly the keys that hold the sentinel are deleted. */
  function Released(m: Cache, keysIn: seq<Key>, s: Sentinel): Cache {
    map k | k in m && !(k in keysIn && k != "" && m[k] == HeldText(s)) :: m[k]
  }

  /** If no watched key has changed since MGET, deleting what held the sentinel then deletes exactly
      what holds it now. */
  lemma ReleasedUnwatched(read: Cache, now: Cache, keysIn: seq<Key>, s: Sentinel)
    requires forall k :: k in NonEmpty(keysIn) ==> !Changed(read, now, k)
    ensures DropAll(now, Holders(read, NonEmpty(keysIn), s)) == Released(now, keysIn, s)
  {
    HoldersExactly(read, NonEmpty(keysIn), s);
    var a, b := DropAll(now, Holders(read, NonEmpty(keysIn), s)), Released(now, keysIn, s);
    assert forall k :: k in a <==> k in b;
  }

  /** The two providers release the same keys, unless a call without a sentinel meets a key that
      holds an empty value: only the Redis provider deletes that. */
  lemma ReleaseAgrees(m: Cache, keysIn: seq<Key>, s: Sentinel)
    ensures Released(m, keysIn, s) == Ops.ReleaseSentinel(m, keysIn, s) <==>
              s.Held? || forall k :: k in NonEmpty(keysIn) ==> At(m, k) != Some(Plain(""))
  {
    var a, b := Released(m, keysIn, s), Ops.ReleaseSentinel(m, keysIn, s);
    if s.Held? || forall k :: k in NonEmpty(keysIn) ==> At(m, k) != Some(Plain("")) {
      forall k ensures k in a <==> k in b {
        assert k in m ==> At(m, k) == Some(m[k]);
      }
    } else {
      var k :| k in NonEmpty(keysIn) && At(m, k) == Some(Plain(""));
      assert k in b && k !in a;
    }
  }

  lemma NothingToSet(m: Cache, lkey: Key, keysIn: seq<Key>, val: string, s: Sentinel)
    requires NonEmpty(keysIn) != [] && lkey != "" && (lkey !in m || m[lkey].Names?)
    ensures Ops.SetValue(m, lkey, keysIn, val, s) == SetResult(m, false, false, false)
  {
  }

  /** The reading half of SetValue decides as the atomic operation would at the commit, if the lock
      key has not changed in between. */
  lemma SetValueUnwatched(read: Cache, now: Cache, lkey: Key, keysIn: seq<Key>, val: string, s: Sentinel)
    requires !Changed(read, now, lkey) && NonEmpty(keysIn) != [] && lkey != "" && lkey in read && !read[lkey].Names?
    ensures var keys, r := NonEmpty(keysIn), Ops.SetValue(now, lkey, keysIn, val, s);
      match CanSetValue(read[lkey], val, s)
      case SetIt => r == SetResult(SetAll(now, keys, Plain(val)), true, false, false)
      case ClearIt => r == SetResult(DropAll(now, keys), false, false, false)
      case ConflictIt =>
        read[lkey].Lock? && s.Held?
        && r == SetResult(SetAll(now, keys, read[lkey].(conflicts := read[lkey].conflicts + [s.id])), false, true, false)
      case Ignore => r == SetResult(now, false, true, false)
  {
  }
}
