/** Operations as clients of the item protocol. The calls an operation makes, seen from the item's
    primary key and with any legal steps of other clients between them, are steps that the protocol
    enables; so the theorems about its runs are about these operations. */
module ItemSimulation {
  import opened Options
  import opened Sentinels
  import Ops = CacheOps
  import opened CacheOps
  import opened SlotOps
  import opened ItemProtocol
  import opened ItemConsistency
  import opened CacheManager

  // ----- A call as a step -----

  /** What one call of client id is to the key p. */
  function Own(e: Event, p: Key, id: Uuid, s: State): seq<Step> {
    match e.call
    case DoWriteSentinel(_, _, _) => [Begin(id, Writer)]
    case DoGetValue(_, _, _) => if p in e.before then [] else [Miss(id)]
    case Server(answer) =>
      if id !in s.clients then [] else if answer.Some? then [Act(id, answer.value)] else [Fail(id)]
    case DoSetValue(_, _, _, _) => [Save(id)]
    case DoReleaseSentinel(_, _) => [Release(id)]
    case DoDeleteValue(keys, tombstone, u) => if p in keys then [Force(u, tombstone)] else []
    case DoClearDependencies(dkey, _, u) => if Holds(e.before, dkey, p) then [Force(u, false)] else []
    case DoAddDependency(_, _) => []
  }

  /** Calls that are not about p, or delete it for whoever holds it. */
  predicate Neutral(call: Call, p: Key) {
    match call
    case DoDeleteValue(_, _, _) => true
    case DoClearDependencies(dkey, _, _) => dkey != p
    case DoAddDependency(dkeys, _) => p !in dkeys
    case _ => false
  }

  predicate Releases(call: Call, p: Key, id: Uuid, s: State) {
    && id in s.clients && call.DoReleaseSentinel? && p in call.keys && call.s == SentinelOf(id, s.clients[id])
    && Enabled(s, Release(id))
  }

  predicate Saves(call: Call, p: Key, id: Uuid, s: State) {
    && Enabled(s, Save(id)) && s.clients[id].granted
    && call.DoSetValue? && call.lkey == p && p in call.keys
    && call.val == s.clients[id].val.value && call.s == SentinelOf(id, s.clients[id])
  }

  predicate Begins(call: Call, p: Key, id: Uuid, s: State) {
    id !in s.clients && call.DoWriteSentinel? && call.stype == Create && call.id == id && call.keys != [] && call.keys[0] == p
  }

  predicate LooksUp(call: Call, p: Key, id: Uuid, s: State) {
    id !in s.clients && call == DoGetValue(p, true, id)
  }

  predicate Asks(call: Call, id: Uuid, s: State) {
    call.Server? && (id in s.clients ==> s.clients[id].phase == Phase.Locked)
  }

  predicate Fits(call: Call, p: Key, id: Uuid, s: State) {
    || Neutral(call, p) || Releases(call, p, id, s) || Saves(call, p, id, s)
    || Begins(call, p, id, s) || LooksUp(call, p, id, s) || Asks(call, id, s)
  }

  lemma {:induction false} AddAllLeaves(m: Cache, dkeys: seq<Key>, names: seq<Key>, p: Key)
    requires p !in dkeys
    ensures At(AddAll(m, dkeys, names).cache, p) == At(m, p)
    decreases |dkeys|
  {
    if dkeys != [] { AddAllLeaves(m, dkeys[..|dkeys| - 1], names, p); }
  }

  /** The steps a call amounts to are enabled, and leave in the key what the call leaves there. */
  lemma CallRefines(e: Event, p: Key, id: Uuid, s: State)
    requires p != "" && s.slot == At(e.before, p) && LocksOwned(s) && Fits(e.call, p, id, s)
    ensures Legal(AnyMix, s, Own(e, p, id, s)) && After(AnyMix, s, Own(e, p, id, s)).slot == At(Effect(e), p)
  {
    match e.call
    case DoWriteSentinel(stype, keys, u) =>
      LockRefines(e.before, stype, keys, u);
    case DoSetValue(lkey, keys, val, sent) =>
      hide LocksOwned;
      CommitRefines(e.before, p, keys, val, sent);
    case DoReleaseSentinel(keys, sent) =>
      hide LocksOwned;
      CommitRefines(e.before, p, keys, "", sent);
    case DoAddDependency(dkeys, names) =>
      hide LocksOwned;
      AddAllLeaves(e.before, NonEmpty(dkeys), NonEmpty(names), p);
    case _ =>
  }

  // ----- Other clients between two calls -----

  predicate ByClient(step: Step, id: Uuid) { !step.Drop? && !step.Force? && step.id == id }

  ghost predicate Foreign(run: seq<Step>, id: Uuid) { forall k :: 0 <= k < |run| ==> !ByClient(run[k], id) }

  /** What matters of a client: where it is, or that there is none. */
  ghost predicate SameClient(s: State, t: State, id: Uuid) {
    (id in s.clients <==> id in t.clients) && (id in s.clients ==> s.clients[id] == t.clients[id])
  }

  lemma {:induction false} ForeignKeeps(s: State, run: seq<Step>, id: Uuid)
    requires LocksOwned(s) && Legal(AnyMix, s, run) && Foreign(run, id)
    ensures LocksOwned(After(AnyMix, s, run)) && SameClient(s, After(AnyMix, s, run), id)
    decreases run
  {
    if run != [] {
      LocksOwnedStep(s, run[0]);
      assert !ByClient(run[0], id);
      assert forall k :: 0 <= k < |run[1..]| ==> run[1..][k] == run[k + 1];
      ForeignKeeps(Apply(s, run[0]), run[1..], id);
    }
  }

  /** The calls from k on find in the key what others have left there, and the server answers a read
      with what it holds. Nothing is said about the operation's own steps: if one of them were not
      possible, what comes after it would not matter. */
  ghost predicate Interleaved(p: Key, id: Uuid, s: State, log: seq<Event>, others: seq<seq<Step>>, k: nat)
    requires k <= |log| == |others|
    decreases |log| - k
  {
    k == |log| ||
    (&& Legal(AnyMix, s, others[k]) && Foreign(others[k], id)
     && var t := After(AnyMix, s, others[k]);
        && t.slot == At(log[k].before, p)
        && (log[k].call.Server? && log[k].call.answer.Some? && id in t.clients && t.clients[id].role == Reader ==>
              t.server == log[k].call.answer)
        && var own := Own(log[k], p, id, t);
           (Legal(AnyMix, t, own) ==> Interleaved(p, id, After(AnyMix, t, own), log, others, k + 1)))
  }

  /** The calls from k on, with what others do before each of them. */
  ghost function Whole(p: Key, id: Uuid, s: State, log: seq<Event>, others: seq<seq<Step>>, k: nat): seq<Step>
    requires k <= |log| == |others|
    decreases |log| - k
  {
    if k == |log| || !Legal(AnyMix, s, others[k]) then []
    else
      var t := After(AnyMix, s, others[k]);
      var own := Own(log[k], p, id, t);
      others[k] + own
      + if Legal(AnyMix, t, own) then Whole(p, id, After(AnyMix, t, own), log, others, k + 1) else []
  }

  /** The calls from k on are a legal run, and leave the key as it is when the last of them returns. */
  ghost predicate Runs(p: Key, id: Uuid, s: State, log: seq<Event>, others: seq<seq<Step>>, k: nat)
    requires k <= |log| == |others|
  {
    && Legal(AnyMix, s, Whole(p, id, s, log, others, k))
    && (k < |log| ==> After(AnyMix, s, Whole(p, id, s, log, others, k)).slot == At(Effect(log[|log| - 1]), p))
  }

  lemma {:induction false} LegalConcat(s: State, a: seq<Step>, b: seq<Step>)
    requires Legal(AnyMix, s, a) && Legal(AnyMix, After(AnyMix, s, a), b)
    ensures Legal(AnyMix, s, a + b) && After(AnyMix, s, a + b) == After(AnyMix, After(AnyMix, s, a), b)
    decreases a
  {
    hide Apply, Enabled;
    if a == [] {
      assert a + b == b;
    } else {
      assert (a + b)[1..] == a[1..] + b;
      LegalConcat(Apply(s, a[0]), a[1..], b);
    }
  }

  /** One call on. The state in which it is made, and the one that it leaves. */
  lemma OneCall(p: Key, id: Uuid, s: State, log: seq<Event>, others: seq<seq<Step>>, k: nat) returns (t: State, u: State)
    requires k < |log| == |others| && p != "" && LocksOwned(s) && Interleaved(p, id, s, log, others, k)
    ensures LocksOwned(t) && SameClient(s, t, id) && t.slot == At(log[k].before, p)
    ensures log[k].call.Server? && log[k].call.answer.Some? && id in t.clients && t.clients[id].role == Reader ==>
      t.server == log[k].call.answer
    ensures Fits(log[k].call, p, id, t) ==>
      && Legal(AnyMix, t, Own(log[k], p, id, t)) && u == After(AnyMix, t, Own(log[k], p, id, t))
      && LocksOwned(u) && Interleaved(p, id, u, log, others, k + 1)
      && (Runs(p, id, u, log, others, k + 1) ==> Runs(p, id, s, log, others, k))
  {
    t := After(AnyMix, s, others[k]);
    ForeignKeeps(s, others[k], id);
    var own := Own(log[k], p, id, t);
    u := t;
    if Fits(log[k].call, p, id, t) {
      CallRefines(log[k], p, id, t);
      u := After(AnyMix, t, own);
      OwnKeepsLocks(t, own);
      if Runs(p, id, u, log, others, k + 1) { Joined(p, id, s, t, u, log, others, k); }
    }
  }

  lemma OwnKeepsLocks(t: State, own: seq<Step>)
    requires LocksOwned(t) && |own| <= 1 && Legal(AnyMix, t, own)
    ensures LocksOwned(After(AnyMix, t, own))
  {
    if own != [] {
      LocksOwnedStep(t, own[0]);
      assert own[1..] == [];
    }
  }

  lemma Joined(p: Key, id: Uuid, s: State, t: State, u: State, log: seq<Event>, others: seq<seq<Step>>, k: nat)
    requires k < |log| == |others| && Legal(AnyMix, s, others[k]) && t == After(AnyMix, s, others[k])
    requires Legal(AnyMix, t, Own(log[k], p, id, t)) && u == After(AnyMix, t, Own(log[k], p, id, t))
    requires u.slot == At(Effect(log[k]), p) && Runs(p, id, u, log, others, k + 1)
    ensures Runs(p, id, s, log, others, k)
  {
    hide Apply, Own, Effect;
    var own, rest := Own(log[k], p, id, t), Whole(p, id, u, log, others, k + 1);
    LegalConcat(s, others[k], own);
    LegalConcat(s, others[k] + own, rest);
    assert Whole(p, id, s, log, others, k) == others[k] + own + rest;
  }

  // ----- The operations, from the end -----

  /** All that is left is to clear, to extend lists, to let go of the lock, or, without one, to ask. */
  ghost predicate WindsUp(p: Key, id: Uuid, s: State, log: seq<Event>, k: nat) {
    forall j :: k <= j < |log| ==>
      || Neutral(log[j].call, p)
      || (log[j].call.Server? && id !in s.clients)
      || (j == |log| - 1 && Releases(log[j].call, p, id, s))
  }

  lemma {:induction false} WindsUpRuns(p: Key, id: Uuid, s: State, log: seq<Event>, others: seq<seq<Step>>, k: nat)
    requires k <= |log| == |others| && p != "" && LocksOwned(s) && Interleaved(p, id, s, log, others, k)
    requires WindsUp(p, id, s, log, k)
    ensures Runs(p, id, s, log, others, k)
    decreases |log| - k
  {
    hide Interleaved, Runs, LocksOwned, Effect;
    if k < |log| {
      var t, u := OneCall(p, id, s, log, others, k);
      if !Releases(log[k].call, p, id, s) { NeutralStays(log[k], p, id, t); }
      WindsUpRuns(p, id, u, log, others, k + 1);
    } else {
      NothingLeft(p, id, s, log, others);
    }
  }

  lemma NothingLeft(p: Key, id: Uuid, s: State, log: seq<Event>, others: seq<seq<Step>>)
    requires |log| == |others|
    ensures Runs(p, id, s, log, others, |log|)
  {
  }

  lemma NeutralStays(e: Event, p: Key, id: Uuid, t: State)
    requires Neutral(e.call, p) || (e.call.Server? && id !in t.clients)
    ensures Legal(AnyMix, t, Own(e, p, id, t)) && SameClient(t, After(AnyMix, t, Own(e, p, id, t)), id)
  {
  }

  /** From k on there is clearing and list keeping, and at the very end the release of c's lock. */
  ghost predicate Closes(log: seq<Event>, k: nat, p: Key, id: Uuid, c: Client) {
    forall j :: k <= j < |log| ==>
      || Neutral(log[j].call, p)
      || (j == |log| - 1 && log[j].call.DoReleaseSentinel? && p in log[j].call.keys && log[j].call.s == SentinelOf(id, c))
  }

  /** What is left is to offer the value, and then to wind up. */
  lemma SaveRuns(p: Key, id: Uuid, s: State, log: seq<Event>, others: seq<seq<Step>>, k: nat)
    requires k < |log| == |others| && p != "" && LocksOwned(s) && Interleaved(p, id, s, log, others, k)
    requires Saves(log[k].call, p, id, s) && Closes(log, k + 1, p, id, s.clients[id])
    ensures Runs(p, id, s, log, others, k)
  {
    hide Interleaved, Runs, LocksOwned, Effect;
    var t, u := OneCall(p, id, s, log, others, k);
    assert Saves(log[k].call, p, id, t);
    assert Own(log[k], p, id, t) == [Save(id)] && [Save(id)][1..] == [];
    WindsUpRuns(p, id, u, log, others, k + 1);
  }

  /** The server answers, and with a lock the answer is offered; or it fails, and nothing is. */
  ghost predicate Asked(log: seq<Event>, k: nat, p: Key, id: Uuid, c: Client) {
    && k < |log| && log[k].call.Server?
    && if c.granted && log[k].call.answer.Some? then
         && k + 1 < |log| && log[k + 1].call.DoSetValue? && log[k + 1].call.lkey == p && p in log[k + 1].call.keys
         && log[k + 1].call.val == log[k].call.answer.value && log[k + 1].call.s == SentinelOf(id, c)
         && Closes(log, k + 2, p, id, c)
       else if c.granted && c.role == Writer then Closes(log, k + 1, p, id, c)
       else |log| == k + 1
  }

  /** The answer, as a step. */
  lemma AnswerStep(e: Event, p: Key, id: Uuid, t: State)
    requires Asks(e.call, id, t) && id in t.clients && t.clients[id].role != Deleter
    requires e.call.answer.Some? && t.clients[id].role == Reader ==> t.server == e.call.answer
    requires Legal(AnyMix, t, Own(e, p, id, t))
    ensures var c, u := t.clients[id], After(AnyMix, t, Own(e, p, id, t));
      && id in u.clients && SentinelOf(id, u.clients[id]) == SentinelOf(id, c)
      && u.clients[id].role == c.role && u.clients[id].granted == c.granted
      && u.clients[id].phase == (if e.call.answer.Some? then Acted else Failed)
      && (e.call.answer.Some? ==> u.clients[id].val == e.call.answer)
  {
    var step := if e.call.answer.Some? then Act(id, e.call.answer.value) else Fail(id);
    assert Own(e, p, id, t) == [step] && [step][1..] == [];
  }

  lemma SameCloses(log: seq<Event>, k: nat, p: Key, id: Uuid, c: Client, d: Client)
    requires Closes(log, k, p, id, c) && SentinelOf(id, c) == SentinelOf(id, d)
    ensures Closes(log, k, p, id, d)
  {
  }

  lemma ClosedWindsUp(log: seq<Event>, k: nat, p: Key, id: Uuid, u: State)
    requires id in u.clients && Closes(log, k, p, id, u.clients[id]) && Enabled(u, Release(id))
    ensures WindsUp(p, id, u, log, k)
  {
  }

  lemma AskRuns(p: Key, id: Uuid, s: State, log: seq<Event>, others: seq<seq<Step>>, k: nat)
    requires k < |log| == |others| && p != "" && LocksOwned(s) && Interleaved(p, id, s, log, others, k)
    requires id in s.clients && s.clients[id].phase == Phase.Locked && s.clients[id].role != Deleter
    requires Asked(log, k, p, id, s.clients[id])
    ensures Runs(p, id, s, log, others, k)
  {
    hide Interleaved, Runs, LocksOwned, Effect, Apply, Legal, After, Own, Closes, WindsUp, SentinelOf;
    var t, u := OneCall(p, id, s, log, others, k);
    AnswerStep(log[k], p, id, t);
    var c, d := s.clients[id], u.clients[id];
    if c.granted && log[k].call.answer.Some? {
      SameCloses(log, k + 2, p, id, c, d);
      SaveRuns(p, id, u, log, others, k + 1);
    } else {
      if c.granted && c.role == Writer {
        SameCloses(log, k + 1, p, id, c, d);
        ClosedWindsUp(log, k + 1, p, id, u);
      } else {
        assert WindsUp(p, id, u, log, k + 1) by { LastWindsUp(log, p, id, u); }
      }
      WindsUpRuns(p, id, u, log, others, k + 1);
    }
  }

  lemma LastWindsUp(log: seq<Event>, p: Key, id: Uuid, u: State)
    ensures WindsUp(p, id, u, log, |log|)
  {
  }

  // ----- Creating an item -----

  /** The item's own key is none of the keys under which lists are kept. */
  predicate OffLists(i: Item, p: Key) { p !in i.dependencyKeys && p != i.dependencies && p != i.globalPages }

  /** The server answers with the item it was asked for, and all items of a type are cached, or none. */
  predicate AnswersFor(answer: Option<Item>, p: Key, skipCache: bool) {
    answer.Some? ==> answer.value.primary == p && answer.value.skipCache == skipCache && OffLists(answer.value, p)
  }

  lemma SavingCloses(log: seq<Event>, n: nat, i: Item, lkey: Key, s: Sentinel, clear: bool, more: seq<Key>, id: Uuid, p: Key)
    requires ItemSaved(log, n, i, lkey, s, clear, more, id) && OffLists(i, p)
    ensures n < |log| && forall j :: n < j < |log| ==> Neutral(log[j].call, p)
  {
    var clears := if clear then WriteClears(i, more, id) else [];
    hide Stored, KeyNames, CollectionKeys, Registered;
    forall j | n < j < |log| ensures Neutral(log[j].call, p) {
      if j < n + 1 + |clears| {
        assert log[n + 1 + (j - n - 1)].call == clears[j - n - 1];
      } else {
        RegisteringNeutral(log, n + 1 + |clears|, i, id, p);
      }
    }
  }

  lemma RegisteringNeutral(log: seq<Event>, n: nat, i: Item, id: Uuid, p: Key)
    requires Registered(log, n, i, id) && OffLists(i, p)
    ensures forall j :: n <= j < |log| ==> Neutral(log[j].call, p)
  {
    hide Refused, KeyNames;
  }

  /** What CreateItem does after its lock call, as the client sees it. */
  lemma CreatedAsks(log: seq<Event>, n: nat, keys: seq<Key>, answer: Option<Item>, more: seq<Key>, id: Uuid, result: CreateResult,
                    p: Key, c: Client)
    requires CreatedUnder(log, n, keys, answer, false, more, id, result) && keys != [] && keys[0] == p != "" && AnswersFor(answer, p, false)
    requires c.role == Writer && SentinelOf(id, c) == Ops.WriteSentinel(log[n].before, Create, keys, id).sentinel
    ensures Asked(log, n + 1, p, id, c)
  {
    LockNeverErrs(log[n].before, keys, id);
    hide ItemSaved, Ops.WriteSentinel, Closes, OffLists, KeyNames, KindFor;
    if c.granted {
      LockedAsks(log, n, keys, answer, more, id, result, p, c);
    }
  }

  lemma LockedAsks(log: seq<Event>, n: nat, keys: seq<Key>, answer: Option<Item>, more: seq<Key>, id: Uuid, result: CreateResult,
                   p: Key, c: Client)
    requires CreatedUnder(log, n, keys, answer, false, more, id, result) && keys != [] && keys[0] == p && AnswersFor(answer, p, false)
    requires c.role == Writer && c.granted
    requires var r := Ops.WriteSentinel(log[n].before, Create, keys, id); !r.error && r.sentinel == SentinelOf(id, c)
    ensures Asked(log, n + 1, p, id, c)
  {
    hide ItemSaved, Ops.WriteSentinel, Closes, OffLists, KeyNames, KindFor;
    if answer.Some? {
      SavedThenReleased(log, n + 2, answer.value, SentinelOf(id, c), more, id, p, c);
    } else {
      ReleasedAtOnce(log, n + 2, keys, p, id, c);
    }
  }

  lemma ReleasedAtOnce(log: seq<Event>, n: nat, keys: seq<Key>, p: Key, id: Uuid, c: Client)
    requires |log| == n + 1 && log[n].call == DoReleaseSentinel(keys, SentinelOf(id, c)) && p in keys
    ensures Closes(log, n, p, id, c)
  {
  }

  lemma SavedThenReleased(log: seq<Event>, n: nat, i: Item, s: Sentinel, more: seq<Key>, id: Uuid, p: Key, c: Client)
    requires log != [] && ItemSaved(log[..|log| - 1], n, i, p, s, true, more, id) && OffLists(i, p) && i.primary == p
    requires s == SentinelOf(id, c)
    requires var last := log[|log| - 1].call; last.DoReleaseSentinel? && last.s == s && p in last.keys
    ensures n + 1 < |log| && log[n].call == DoSetValue(p, KeyNames(i), i.text, s) && p in KeyNames(i)
    ensures Closes(log, n + 1, p, id, c)
  {
    var front := log[..|log| - 1];
    SavingCloses(front, n, i, p, s, true, more, id, p);
    FirstSaved(front, n, i, p, s, true, more, id);
    hide ItemSaved, Neutral;
    assert forall j :: 0 <= j < |front| ==> front[j] == log[j];
  }

  lemma LockNeverErrs(m: Cache, keys: seq<Key>, id: Uuid)
    requires keys != [] && keys[0] != ""
    ensures !Ops.WriteSentinel(m, Create, keys, id).error
  {
    hide Sweep, CanSetSentinelGivenCurrVal;
    NonEmptyHead(keys);
  }

  lemma FirstSaved(log: seq<Event>, n: nat, i: Item, lkey: Key, s: Sentinel, clear: bool, more: seq<Key>, id: Uuid)
    requires ItemSaved(log, n, i, lkey, s, clear, more, id)
    ensures n < |log| && log[n].call == DoSetValue(lkey, KeyNames(i), i.text, s) && i.primary in KeyNames(i)
  {
  }

  /** CreateItem is a writer. Whatever the other clients do between its calls, its calls and their
      steps together are a run of the protocol, which ends with the key as the last call leaves it. */
  lemma CreateSimulates(log: seq<Event>, n: nat, i: Item, answer: Option<Item>, more: seq<Key>, id: Uuid, result: CreateResult,
                        s: State, others: seq<seq<Step>>)
    requires ItemCreated(log, n, i, answer, false, more, id, result) && i.primary != "" && AnswersFor(answer, i.primary, false)
    requires |others| == |log| && LocksOwned(s) && id !in s.clients && Interleaved(i.primary, id, s, log, others, n)
    ensures Runs(i.primary, id, s, log, others, n)
  {
    var p := i.primary;
    hide ItemSaved, Interleaved, Runs, Effect, GetItemLockKeys, LocksOwned, Closes;
    assert Begins(log[n].call, p, id, s);
    var t, u := OneCall(p, id, s, log, others, n);
    LockStep(log[n], p, id, t);
    hide Apply, Legal, After, Own, SentinelOf, Ops.WriteSentinel;
    CreatedAsks(log, n, GetItemLockKeys(Create, i), answer, more, id, result, p, u.clients[id]);
    AskRuns(p, id, u, log, others, n + 1);
  }

  lemma LockStep(e: Event, p: Key, id: Uuid, t: State)
    requires p != "" && LocksOwned(t) && t.slot == At(e.before, p) && Begins(e.call, p, id, t) && Legal(AnyMix, t, Own(e, p, id, t))
    ensures var u := After(AnyMix, t, Own(e, p, id, t));
      && id in u.clients && u.clients[id].role == Writer && u.clients[id].phase == Phase.Locked
      && SentinelOf(id, u.clients[id]) == Ops.WriteSentinel(e.before, Create, e.call.keys, id).sentinel
  {
    assert Own(e, p, id, t) == [Begin(id, Writer)] && [Begin(id, Writer)][1..] == [];
    LocksNotNames(t);
    hide LocksOwned;
    LockRefines(e.before, Create, e.call.keys, id);
  }

  lemma LocksNotNames(s: State)
    requires LocksOwned(s)
    ensures s.slot.Some? ==> !s.slot.value.Names?
  {
  }

  // ----- Getting an item -----

  /** With something in the key the look-up takes no lock, and nothing is stored afterwards. */
  lemma GotWithoutLock(log: seq<Event>, n: nat, m: nat, i: Item, read: string -> Reading, answer: Option<Item>, id: Uuid,
                       found: Option<string>, sentinel: Sentinel, text: Option<string>)
    requires ItemGot(log, n, m, i, read, answer, id, found, sentinel, text)
    requires !i.skipCache && i.primary != "" && i.primary in log[n].before
    ensures forall j :: n < j < |log| ==> Neutral(log[j].call, i.primary) || log[j].call.Server?
  {
    hide ItemSaved;
    var front := log[..m];
    assert forall j :: 0 <= j < m ==> front[j] == log[j];
    assert sentinel == NoLock;
    assert forall j :: n < j < m ==> j == n + 1 && front[j].call == DoDeleteValue([i.primary], false, id);
  }

  /** On a miss the look-up locks the key, and the answer is offered under that lock. */
  lemma GotUnderLock(log: seq<Event>, n: nat, m: nat, i: Item, read: string -> Reading, answer: Option<Item>, id: Uuid,
                     found: Option<string>, sentinel: Sentinel, text: Option<string>, c: Client)
    requires ItemGot(log, n, m, i, read, answer, id, found, sentinel, text)
    requires !i.skipCache && i.primary != "" && i.primary !in log[n].before && AnswersFor(answer, i.primary, false)
    requires c.role == Reader && c.granted
    ensures Asked(log, n + 1, i.primary, id, c)
  {
    hide ItemSaved, OffLists, KeyNames;
    var front, p := log[..m], i.primary;
    assert front[n] == log[n] && m == n + 1 && found.None? && sentinel == Held(ReadLock, id);
    if answer.Some? {
      SavingCloses(log, m + 1, answer.value, p, sentinel, false, [], id, p);
      FirstSaved(log, m + 1, answer.value, p, sentinel, false, [], id);
    }
  }

  /** GetItem is a reader if it misses, and no client at all if something is in the key or the type is
      never cached. */
  lemma GetSimulates(log: seq<Event>, n: nat, m: nat, i: Item, read: string -> Reading, answer: Option<Item>, id: Uuid,
                     found: Option<string>, sentinel: Sentinel, text: Option<string>, s: State, others: seq<seq<Step>>)
    requires ItemGot(log, n, m, i, read, answer, id, found, sentinel, text)
    requires i.primary != "" && AnswersFor(answer, i.primary, i.skipCache)
    requires |others| == |log| && LocksOwned(s) && id !in s.clients && Interleaved(i.primary, id, s, log, others, n)
    ensures Runs(i.primary, id, s, log, others, n)
  {
    var p := i.primary;
    if i.skipCache {
      hide ItemSaved, Interleaved, Runs, LocksOwned;
      WindsUpRuns(p, id, s, log, others, n);
    } else {
      CachedGetSimulates(log, n, m, i, read, answer, id, found, sentinel, text, s, others);
    }
  }

  lemma CachedGetSimulates(log: seq<Event>, n: nat, m: nat, i: Item, read: string -> Reading, answer: Option<Item>, id: Uuid,
                           found: Option<string>, sentinel: Sentinel, text: Option<string>, s: State, others: seq<seq<Step>>)
    requires ItemGot(log, n, m, i, read, answer, id, found, sentinel, text) && !i.skipCache
    requires i.primary != "" && AnswersFor(answer, i.primary, false)
    requires |others| == |log| && LocksOwned(s) && id !in s.clients && Interleaved(i.primary, id, s, log, others, n)
    ensures Runs(i.primary, id, s, log, others, n)
  {
    var p := i.primary;
    LookUpFirst(log, n, m, i, read, answer, id, found, sentinel, text);
    hide ItemGot, Interleaved, Runs, Effect, LocksOwned, Asked, AnswersFor, Apply, Legal, After;
    assert LooksUp(log[n].call, p, id, s);
    var t, u := OneCall(p, id, s, log, others, n);
    if p in log[n].before {
      NoStep(t);
      GotWithoutLock(log, n, m, i, read, answer, id, found, sentinel, text);
      WindsUpRuns(p, id, u, log, others, n + 1);
    } else {
      MissStep(log[n], p, id, t);
      GotUnderLock(log, n, m, i, read, answer, id, found, sentinel, text, u.clients[id]);
      AskRuns(p, id, u, log, others, n + 1);
    }
  }

  lemma NoStep(t: State)
    ensures After(AnyMix, t, []) == t
  {
  }

  lemma MissStep(e: Event, p: Key, id: Uuid, t: State)
    requires LooksUp(e.call, p, id, t) && p !in e.before && Legal(AnyMix, t, Own(e, p, id, t))
    ensures var u := After(AnyMix, t, Own(e, p, id, t));
      id in u.clients && u.clients[id].role == Reader && u.clients[id].granted && u.clients[id].phase == Phase.Locked
  {
    assert Own(e, p, id, t) == [Miss(id)] && [Miss(id)][1..] == [];
  }

  lemma LookUpFirst(log: seq<Event>, n: nat, m: nat, i: Item, read: string -> Reading, answer: Option<Item>, id: Uuid,
                    found: Option<string>, sentinel: Sentinel, text: Option<string>)
    requires ItemGot(log, n, m, i, read, answer, id, found, sentinel, text) && !i.skipCache
    ensures n < |log| && log[n].call == DoGetValue(i.primary, true, id)
  {
    assert log[..m][n] == log[n];
  }

  /** So what holds of every run holds of these operations too: whatever they store, nobody else
      tried for the key since they locked it. */
  lemma OperationsFillSafely(p: Key, id: Uuid, s: State, log: seq<Event>, others: seq<seq<Step>>, k: nat)
    requires k <= |log| == |others| && HistoryInv(s) && Runs(p, id, s, log, others, k)
    ensures var t := After(AnyMix, s, Whole(p, id, s, log, others, k));
      forall u :: u in t.clients ==> ReadFillSafe(t, u) && WriteFillSafe(t, u)
  {
    hide Whole, ReadFillSafe, WriteFillSafe;
    HistoryRun(AnyMix, s, Whole(p, id, s, log, others, k));
  }

  /** A hit answers with the server's value: in the guarded runs, when no mutation is in flight and
      what is cached can be read. */
  lemma HitIsCurrent(log: seq<Event>, n: nat, m: nat, i: Item, read: string -> Reading, answer: Option<Item>, id: Uuid,
                     found: Option<string>, sentinel: Sentinel, text: Option<string>, s: State, run: seq<Step>)
    requires ItemGot(log, n, m, i, read, answer, id, found, sentinel, text) && !i.skipCache && i.primary != ""
    requires Init(s) && Legal(Guarded, s, run)
    requires var t := After(Guarded, s, run);
      && n < |log| && t.slot == At(log[n].before, i.primary) && InFlight(t) == {}
      && t.slot.Some? && t.slot.value.Plain? && read(t.slot.value.text).Readable?
    ensures text.Some? && text == After(Guarded, s, run).server && |log| == n + 1
  {
    LookUpAnswers(log, n, m, i, read, answer, id, found, sentinel, text);
    GuardedConsistent(s, run);
    hide ItemGot;
  }
}
