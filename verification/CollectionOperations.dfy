/** Creates and deletes as clients of the collection protocol. The calls of creating an item, and
    those that lock it for a delete, with any legal steps of other clients between them, are the steps
    of a creator and of a deleter; so what a create has to clear is cleared, and what a delete has to
    block is blocked. */
module CollectionOperations {
  import opened Options
  import opened Sentinels
  import opened CacheOps
  import opened SlotOps
  import opened CollectionProtocol
  import opened CollectionSafety
  import Manager = CacheManager

  /** What a client is about: a create with collections to clear, or a delete of an item whose
      dependents are listed under a key. */
  datatype Job = Creates(clears: seq<Key>) | Deletes(dep: Key)

  // ----- A call as a step -----

  predicate Clearing(s: State, id: Uuid) { id in s.creators && s.creators[id].phase == Committed }

  predicate Blocking(call: Manager.Call, id: Uuid, job: Job, s: State) {
    && job.Deletes? && id in s.deleters && s.deleters[id] == Deleter(job.dep, Asked, 0)
    && call.DoClearDependencies? && call.dkey == job.dep && call.tombstone
  }

  function Own(e: Manager.Event, id: Uuid, job: Job, s: State): seq<Step> {
    match e.call
    case DoWriteSentinel(_, keys, _) => [if job.Creates? then CreateBegin(id, keys, job.clears) else DeleteBegin(id, keys, job.dep)]
    case Server(answer) => if job.Creates? && answer.Some? then [CreateCommit(id)] else []
    case DoSetValue(lkey, keys, val, sent) => [OtherSet(lkey, keys, val, sent)]
    case DoDeleteValue(keys, tombstone, u) => [if Clearing(s, id) then CreateClear(id, keys, u) else OtherDelete(keys, tombstone, true, u)]
    case DoClearDependencies(dkey, tombstone, u) =>
      [if Blocking(e.call, id, job, s) then DeleteBlock(id, u) else OtherClear(dkey, tombstone, u)]
    case DoAddDependency(dkeys, names) => [OtherRegister(dkeys, names)]
    case DoReleaseSentinel(keys, sent) => [OtherRelease(keys, sent)]
    case DoGetValue(_, _, _) => []
  }

  ghost predicate Fits(L: Layout, call: Manager.Call, id: Uuid, job: Job, s: State) {
    match call
    case DoWriteSentinel(stype, keys, u) =>
      && u == id && id !in s.used && L.NoDeps(keys)
      && if job.Creates? then stype == Create && L.NoDeps(job.clears) else stype == Delete && job.dep in L.deps
    case Server(answer) => job.Creates? && answer.Some? && id in s.creators && s.creators[id].phase == Creating
    case DoSetValue(_, keys, _, _) => L.ItemKeys(keys)
    case DoDeleteValue(keys, tombstone, _) =>
      && L.NoDeps(keys)
      && (Clearing(s, id) ==> tombstone && s.creators[id].granted && forall k :: k in s.creators[id].clears ==> k in keys)
    case DoClearDependencies(dkey, _, _) => dkey in L.deps
    case DoAddDependency(dkeys, names) => (forall d :: d in dkeys ==> d in L.deps) && L.NoDeps(names)
    case DoReleaseSentinel(_, _) => true
    case DoGetValue(_, _, _) => false
  }

  lemma DeleteMore(m: Cache, keys: seq<Key>, more: seq<Key>, id: Uuid)
    requires forall k :: k in more ==> k in keys
    ensures DeleteValue(m, keys + more, true, true, id) == DeleteValue(m, keys, true, true, id)
  {
    assert Targets(m, keys + more, true) == Targets(m, keys, true);
  }

  /** One step, as a run. */
  lemma AsRun(L: Layout, s: State, step: Step)
    requires L.Valid() && Enabled(L, s, step)
    ensures Legal(L, s, [step]) && After(L, s, [step]) == Apply(L, s, step)
  {
    hide Enabled, Apply;
    var t := Apply(L, s, step);
    assert [step][1..] == [] && Legal(L, t, []);
  }

  lemma DeleteRefines(L: Layout, e: Manager.Event, id: Uuid, job: Job, s: State)
    requires L.Valid() && s.cache == e.before && Fits(L, e.call, id, job, s) && e.call.DoDeleteValue?
    ensures Legal(L, s, Own(e, id, job, s)) && After(L, s, Own(e, id, job, s)).cache == Manager.Effect(e)
  {
    var call := e.call;
    if Clearing(s, id) { DeleteMore(s.cache, call.keys, s.creators[id].clears, call.id); }
    hide DeleteValue, Legal, After;
    AsRun(L, s, Own(e, id, job, s)[0]);
    assert Own(e, id, job, s) == [Own(e, id, job, s)[0]];
  }

  /** The step a call amounts to is enabled, and leaves the cache as the call does. */
  lemma CallRefines(L: Layout, e: Manager.Event, id: Uuid, job: Job, s: State)
    requires L.Valid() && s.cache == e.before && Fits(L, e.call, id, job, s)
    ensures Legal(L, s, Own(e, id, job, s)) && After(L, s, Own(e, id, job, s)).cache == Manager.Effect(e)
  {
    hide WriteSentinel, SetValue, ReleaseSentinel, DeleteValue, AddDependency, ClearDependencies, GetValue, Legal, After;
    if e.call.DoDeleteValue? {
      DeleteRefines(L, e, id, job, s);
    } else if e.call.Server? {
      AsRun(L, s, CreateCommit(id));
      assert Own(e, id, job, s) == [CreateCommit(id)];
    } else {
      AsRun(L, s, Own(e, id, job, s)[0]);
      assert Own(e, id, job, s) == [Own(e, id, job, s)[0]];
    }
  }

  // ----- Other clients between two calls -----

  predicate ByClient(step: Step, id: Uuid) {
    || ((step.CreateCommit? || step.CreateClear? || step.CreateReturn?) && step.id == id)
    || ((step.DeleteBlock? || step.DeleteCommit?) && step.id == id)
  }

  ghost predicate Foreign(run: seq<Step>, id: Uuid) { forall k :: 0 <= k < |run| ==> !ByClient(run[k], id) }

  ghost predicate SameClient(s: State, t: State, id: Uuid) {
    && s.used <= t.used
    && (id in s.used ==>
         && (id in s.creators <==> id in t.creators) && (id in s.creators ==> s.creators[id] == t.creators[id])
         && (id in s.deleters <==> id in t.deleters) && (id in s.deleters ==> s.deleters[id] == t.deleters[id]))
  }

  lemma ForeignFill(L: Layout, s: State, step: Step, id: Uuid)
    requires L.Valid() && Enabled(L, s, step) && !ByClient(step, id)
    requires step.FillLock? || step.FillFetch? || step.FillRegister?
    ensures SameClient(s, Apply(L, s, step), id) && Apply(L, s, step).now == s.now + 1
  {
    hide WriteSentinel, SetValue, ReleaseSentinel, DeleteValue, Flush, GetValue, ClearDependencies, AddDependency;
  }

  lemma ForeignEnd(L: Layout, s: State, step: Step, id: Uuid)
    requires L.Valid() && Enabled(L, s, step) && !ByClient(step, id)
    requires step.FillInstall? || step.FillRelease?
    ensures SameClient(s, Apply(L, s, step), id) && Apply(L, s, step).now == s.now + 1
  {
    hide WriteSentinel, SetValue, ReleaseSentinel, DeleteValue, Flush, GetValue, ClearDependencies, AddDependency;
  }

  lemma ForeignCreate(L: Layout, s: State, step: Step, id: Uuid)
    requires L.Valid() && Enabled(L, s, step) && !ByClient(step, id)
    requires step.CreateBegin? || step.CreateCommit? || step.CreateClear? || step.CreateReturn?
    ensures SameClient(s, Apply(L, s, step), id) && Apply(L, s, step).now == s.now + 1
  {
    hide WriteSentinel, SetValue, ReleaseSentinel, DeleteValue, Flush, GetValue, ClearDependencies, AddDependency;
  }

  lemma ForeignDelete(L: Layout, s: State, step: Step, id: Uuid)
    requires L.Valid() && Enabled(L, s, step) && !ByClient(step, id)
    requires step.DeleteBegin? || step.DeleteBlock? || step.DeleteCommit?
    ensures SameClient(s, Apply(L, s, step), id) && Apply(L, s, step).now == s.now + 1
  {
    hide WriteSentinel, SetValue, ReleaseSentinel, DeleteValue, Flush, GetValue, ClearDependencies, AddDependency;
  }

  lemma ForeignOther(L: Layout, s: State, step: Step, id: Uuid)
    requires L.Valid() && Enabled(L, s, step) && !ByClient(step, id)
    requires step.OtherLock? || step.OtherSet? || step.OtherRelease?
    ensures SameClient(s, Apply(L, s, step), id) && Apply(L, s, step).now == s.now + 1
  {
    hide WriteSentinel, SetValue, ReleaseSentinel, DeleteValue, Flush, GetValue, ClearDependencies, AddDependency;
  }

  lemma ForeignClear(L: Layout, s: State, step: Step, id: Uuid)
    requires L.Valid() && Enabled(L, s, step) && !ByClient(step, id)
    requires step.OtherDelete? || step.OtherRegister? || step.OtherClear?
    ensures SameClient(s, Apply(L, s, step), id) && Apply(L, s, step).now == s.now + 1
  {
    hide WriteSentinel, SetValue, ReleaseSentinel, DeleteValue, Flush, GetValue, ClearDependencies, AddDependency;
  }

  lemma ForeignLoss(L: Layout, s: State, step: Step, id: Uuid)
    requires L.Valid() && Enabled(L, s, step) && !ByClient(step, id)
    requires step.FlushAll? || step.Evict? || step.Expire?
    ensures SameClient(s, Apply(L, s, step), id) && Apply(L, s, step).now == s.now + 1
  {
    hide WriteSentinel, SetValue, ReleaseSentinel, DeleteValue, Flush, GetValue, ClearDependencies, AddDependency;
  }

  lemma ForeignStep(L: Layout, s: State, step: Step, id: Uuid)
    requires L.Valid() && Enabled(L, s, step) && !ByClient(step, id)
    ensures SameClient(s, Apply(L, s, step), id) && Apply(L, s, step).now == s.now + 1
  {
    hide Enabled, Apply, SameClient;
    match step
    case FillLock(_, _) => ForeignFill(L, s, step, id);
    case FillFetch(_, _, _) => ForeignFill(L, s, step, id);
    case FillRegister(_) => ForeignFill(L, s, step, id);
    case FillInstall(_) => ForeignEnd(L, s, step, id);
    case FillRelease(_) => ForeignEnd(L, s, step, id);
    case CreateBegin(_, _, _) => ForeignCreate(L, s, step, id);
    case CreateCommit(_) => ForeignCreate(L, s, step, id);
    case CreateClear(_, _, _) => ForeignCreate(L, s, step, id);
    case CreateReturn(_) => ForeignCreate(L, s, step, id);
    case DeleteBegin(_, _, _) => ForeignDelete(L, s, step, id);
    case DeleteBlock(_, _) => ForeignDelete(L, s, step, id);
    case DeleteCommit(_) => ForeignDelete(L, s, step, id);
    case OtherLock(_, _, _) => ForeignOther(L, s, step, id);
    case OtherSet(_, _, _, _) => ForeignOther(L, s, step, id);
    case OtherRelease(_, _) => ForeignOther(L, s, step, id);
    case OtherDelete(_, _, _, _) => ForeignClear(L, s, step, id);
    case OtherRegister(_, _) => ForeignClear(L, s, step, id);
    case OtherClear(_, _, _) => ForeignClear(L, s, step, id);
    case FlushAll(_) => ForeignLoss(L, s, step, id);
    case Evict(_) => ForeignLoss(L, s, step, id);
    case Expire(_) => ForeignLoss(L, s, step, id);
  }

  lemma {:induction false} ForeignKeeps(L: Layout, s: State, run: seq<Step>, id: Uuid)
    requires L.Valid() && Legal(L, s, run) && Foreign(run, id)
    ensures SameClient(s, After(L, s, run), id) && s.now <= After(L, s, run).now
    decreases run
  {
    hide Enabled, Apply;
    if run != [] {
      assert !ByClient(run[0], id);
      ForeignStep(L, s, run[0], id);
      assert forall k :: 0 <= k < |run[1..]| ==> run[1..][k] == run[k + 1];
      ForeignKeeps(L, Apply(L, s, run[0]), run[1..], id);
    }
  }

  /** The calls from k on find the cache as others have left it. The operation's own name is new to
      the others until it takes its lock. */
  ghost predicate Interleaved(L: Layout, id: Uuid, job: Job, s: State, log: seq<Manager.Event>, others: seq<seq<Step>>, k: nat)
    requires L.Valid() && k <= |log| == |others|
    decreases |log| - k
  {
    k == |log| ||
    (&& Legal(L, s, others[k]) && Foreign(others[k], id)
     && var t := After(L, s, others[k]);
        && t.cache == log[k].before && (log[k].call.DoWriteSentinel? ==> id !in t.used)
        && var own := Own(log[k], id, job, t);
           (Legal(L, t, own) ==> Interleaved(L, id, job, After(L, t, own), log, others, k + 1)))
  }

  ghost function Whole(L: Layout, id: Uuid, job: Job, s: State, log: seq<Manager.Event>, others: seq<seq<Step>>, k: nat): seq<Step>
    requires L.Valid() && k <= |log| == |others|
    decreases |log| - k
  {
    if k == |log| || !Legal(L, s, others[k]) then []
    else
      var t := After(L, s, others[k]);
      var own := Own(log[k], id, job, t);
      others[k] + own
      + if Legal(L, t, own) then Whole(L, id, job, After(L, t, own), log, others, k + 1) else []
  }

  /** The client has done what its job was: the create has cleared, after it committed, which was not
      before since; the delete has blocked. */
  predicate Done(s: State, id: Uuid, job: Job, since: nat) {
    match job
    case Creates(clears) =>
      id in s.used && id in s.creators && var c := s.creators[id]; c.granted && c.clears == clears && c.phase == Cleared && since <= c.commitAt
    case Deletes(dep) => id in s.used && id in s.deleters && s.deleters[id] == Deleter(dep, Blocked, 0)
  }

  /** The calls from k on are a legal run in which the client does its job, and which leaves the cache
      as the last call does. */
  ghost predicate Runs(L: Layout, id: Uuid, job: Job, since: nat, s: State, log: seq<Manager.Event>, others: seq<seq<Step>>, k: nat)
    requires L.Valid() && k <= |log| == |others|
  {
    && Legal(L, s, Whole(L, id, job, s, log, others, k))
    && var t := After(L, s, Whole(L, id, job, s, log, others, k));
       Done(t, id, job, since) && (k < |log| ==> t.cache == Manager.Effect(log[|log| - 1]))
  }

  /** One call on. The state in which it is made, and the one that it leaves. */
  lemma OneCall(L: Layout, id: Uuid, job: Job, s: State, log: seq<Manager.Event>, others: seq<seq<Step>>, k: nat, since: nat)
    returns (t: State, u: State)
    requires L.Valid() && k < |log| == |others| && Interleaved(L, id, job, s, log, others, k)
    ensures SameClient(s, t, id) && t.cache == log[k].before && (log[k].call.DoWriteSentinel? ==> id !in t.used) && s.now <= t.now
    ensures Fits(L, log[k].call, id, job, t) ==>
      && Legal(L, t, Own(log[k], id, job, t)) && u == After(L, t, Own(log[k], id, job, t))
      && Interleaved(L, id, job, u, log, others, k + 1)
      && (Runs(L, id, job, since, u, log, others, k + 1) ==> Runs(L, id, job, since, s, log, others, k))
  {
    t := After(L, s, others[k]);
    ForeignKeeps(L, s, others[k], id);
    u := t;
    if Fits(L, log[k].call, id, job, t) {
      CallRefines(L, log[k], id, job, t);
      u := After(L, t, Own(log[k], id, job, t));
      if Runs(L, id, job, since, u, log, others, k + 1) { Joined(L, id, job, s, t, u, log, others, k, since); }
    }
  }

  lemma Joined(L: Layout, id: Uuid, job: Job, s: State, t: State, u: State, log: seq<Manager.Event>, others: seq<seq<Step>>, k: nat, since: nat)
    requires L.Valid() && k < |log| == |others| && Legal(L, s, others[k]) && t == After(L, s, others[k])
    requires Legal(L, t, Own(log[k], id, job, t)) && u == After(L, t, Own(log[k], id, job, t))
    requires u.cache == Manager.Effect(log[k]) && Runs(L, id, job, since, u, log, others, k + 1)
    ensures Runs(L, id, job, since, s, log, others, k)
  {
    hide Apply, Enabled, Own, Manager.Effect;
    var own, rest := Own(log[k], id, job, t), Whole(L, id, job, u, log, others, k + 1);
    LegalConcat(L, s, others[k], own);
    LegalConcat(L, s, others[k] + own, rest);
    assert Whole(L, id, job, s, log, others, k) == others[k] + own + rest;
  }

  // ----- The operations, from the end -----

  /** Calls that change nothing about the client. */
  ghost predicate Neutral(L: Layout, call: Manager.Call) {
    match call
    case DoSetValue(_, keys, _, _) => L.ItemKeys(keys)
    case DoDeleteValue(keys, _, _) => L.NoDeps(keys)
    case DoClearDependencies(dkey, _, _) => dkey in L.deps
    case DoAddDependency(dkeys, names) => (forall d :: d in dkeys ==> d in L.deps) && L.NoDeps(names)
    case DoReleaseSentinel(_, _) => true
    case _ => false
  }

  lemma NeutralStays(L: Layout, e: Manager.Event, id: Uuid, job: Job, t: State)
    requires L.Valid() && Neutral(L, e.call) && id in t.used
    requires !(e.call.DoDeleteValue? && Clearing(t, id)) && !Blocking(e.call, id, job, t)
    ensures Fits(L, e.call, id, job, t)
    ensures Legal(L, t, Own(e, id, job, t)) ==> SameClient(t, After(L, t, Own(e, id, job, t)), id)
  {
    hide Apply, Enabled, SameClient;
    var own := Own(e, id, job, t);
    assert |own| == 1 && own[1..] == [] && !ByClient(own[0], id);
    if Legal(L, t, own) { ForeignStep(L, t, own[0], id); }
  }

  lemma {:induction false} WindsUpRuns(L: Layout, id: Uuid, job: Job, s: State, log: seq<Manager.Event>, others: seq<seq<Step>>, k: nat, since: nat)
    requires L.Valid() && k <= |log| == |others| && Interleaved(L, id, job, s, log, others, k)
    requires id in s.used && !Clearing(s, id) && Done(s, id, job, since)
    requires forall j :: k <= j < |log| ==> Neutral(L, log[j].call)
    ensures Runs(L, id, job, since, s, log, others, k)
    decreases |log| - k
  {
    hide Interleaved, Runs, Own, Apply, Enabled, Legal, After, Fits, Neutral, Manager.Effect;
    if k < |log| {
      var t, u := OneCall(L, id, job, s, log, others, k, since);
      NeutralStays(L, log[k], id, job, t);
      WindsUpRuns(L, id, job, u, log, others, k + 1, since);
    } else {
      NothingLeft(L, id, job, s, log, others, since);
    }
  }

  lemma NothingLeft(L: Layout, id: Uuid, job: Job, s: State, log: seq<Manager.Event>, others: seq<seq<Step>>, since: nat)
    requires L.Valid() && |log| == |others| && Done(s, id, job, since)
    ensures Runs(L, id, job, since, s, log, others, |log|)
  {
  }

  // ----- Locking an item for a delete -----

  /** TakeLockWorker is a deleter up to the moment the server is asked: whatever the other clients do
      between its calls, they and its calls are a legal run, at the end of which the delete has
      blocked its dependency list. */
  lemma LockBlocks(L: Layout, log: seq<Manager.Event>, n: nat, i: Manager.Item, keys: seq<Key>, id: Uuid, lock: Sentinel,
                   s: State, others: seq<seq<Step>>)
    requires L.Valid() && Manager.LockTaken(log, n, Delete, i, keys, id, lock, false)
    requires L.NoDeps(keys) && i.dependencies in L.deps && i.globalPages != i.dependencies
    requires i.globalPages == "" || i.globalPages in L.deps
    requires |others| == |log| && Interleaved(L, id, Deletes(i.dependencies), s, log, others, n)
    ensures Runs(L, id, Deletes(i.dependencies), 0, s, log, others, n)
  {
    var job := Deletes(i.dependencies);
    LockCalls(log, n, i, keys, id, lock);
    hide Interleaved, Runs, Own, Apply, Enabled, Legal, After, SameClient, Manager.Effect, Manager.LockTaken, Fits, WriteSentinel;
    var t, u := OneCall(L, id, job, s, log, others, n, 0);
    DeleteFits(L, log[n].call, keys, id, job, t);
    LocksForDelete(L, log[n], id, job, t);
    if i.globalPages != "" {
      PagesRuns(L, id, job, u, log, others, n + 1);
    } else {
      BlockRuns(L, id, job, u, log, others, n + 1);
    }
  }

  /** The calls, one by one. */
  lemma LockCalls(log: seq<Manager.Event>, n: nat, i: Manager.Item, keys: seq<Key>, id: Uuid, lock: Sentinel)
    requires Manager.LockTaken(log, n, Delete, i, keys, id, lock, false) && i.dependencies != ""
    ensures n < |log| && log[n].call == Manager.DoWriteSentinel(Delete, keys, id)
    ensures if i.globalPages == "" then |log| == n + 2
            else |log| == n + 3 && log[n + 1].call == Manager.DoClearDependencies(i.globalPages, false, id)
    ensures log[|log| - 1].call == Manager.DoClearDependencies(i.dependencies, true, id)
  {
    hide WriteSentinel;
    var clears := Manager.DeleteClears(i, id);
    assert log[n + 1 + 0].call == clears[0];
    if i.globalPages != "" { assert log[n + 1 + 1].call == clears[1]; }
  }

  lemma DeleteFits(L: Layout, call: Manager.Call, keys: seq<Key>, id: Uuid, job: Job, t: State)
    requires call == Manager.DoWriteSentinel(Delete, keys, id) && id !in t.used && L.NoDeps(keys)
    requires job.Deletes? && job.dep in L.deps
    ensures Fits(L, call, id, job, t)
  {
  }

  lemma LocksForDelete(L: Layout, e: Manager.Event, id: Uuid, job: Job, t: State)
    requires L.Valid() && e.call.DoWriteSentinel? && job.Deletes? && Fits(L, e.call, id, job, t) && Legal(L, t, Own(e, id, job, t))
    ensures var u := After(L, t, Own(e, id, job, t)); id in u.used && id in u.deleters && u.deleters[id] == Deleter(job.dep, Asked, 0)
  {
    hide WriteSentinel;
    assert Own(e, id, job, t)[1..] == [];
  }

  lemma BlockRuns(L: Layout, id: Uuid, job: Job, s: State, log: seq<Manager.Event>, others: seq<seq<Step>>, k: nat)
    requires L.Valid() && k + 1 == |log| == |others| && Interleaved(L, id, job, s, log, others, k)
    requires job.Deletes? && job.dep in L.deps && log[k].call == Manager.DoClearDependencies(job.dep, true, id)
    requires id in s.used && id in s.deleters && s.deleters[id] == Deleter(job.dep, Asked, 0)
    ensures Runs(L, id, job, 0, s, log, others, k)
  {
    hide Interleaved, Runs, Manager.Effect, ClearDependencies;
    var t, u := OneCall(L, id, job, s, log, others, k, 0);
    assert Own(log[k], id, job, t) == [DeleteBlock(id, id)] && [DeleteBlock(id, id)][1..] == [];
    NothingLeft(L, id, job, u, log, others, 0);
  }

  lemma PagesRuns(L: Layout, id: Uuid, job: Job, s: State, log: seq<Manager.Event>, others: seq<seq<Step>>, k: nat)
    requires L.Valid() && k + 2 == |log| == |others| && Interleaved(L, id, job, s, log, others, k)
    requires job.Deletes? && job.dep in L.deps && log[k + 1].call == Manager.DoClearDependencies(job.dep, true, id)
    requires log[k].call.DoClearDependencies? && log[k].call.dkey in L.deps && log[k].call.dkey != job.dep
    requires id in s.used && id in s.deleters && s.deleters[id] == Deleter(job.dep, Asked, 0)
    ensures Runs(L, id, job, 0, s, log, others, k)
  {
    hide Interleaved, Runs, Own, Apply, Legal, After, Manager.Effect;
    var t, u := OneCall(L, id, job, s, log, others, k, 0);
    NeutralStays(L, log[k], id, job, t);
    BlockRuns(L, id, job, u, log, others, k + 1);
  }

  /** Read after delete, of the operation: in a reachable state it takes its lock, the server deletes
      the item, others go on; whatever is then cached and depends on the item was fetched after the
      delete had blocked its list. */
  lemma DeletedIsGone(L: Layout, s0: State, run0: seq<Step>, s: State, dep: Key, id: Uuid, log: seq<Manager.Event>,
                      others: seq<seq<Step>>, n: nat, t: State, later: seq<Step>, k: Key)
    requires L.Valid() && Init(s0) && Legal(L, s0, run0) && s == After(L, s0, run0)
    requires n <= |log| == |others| && Runs(L, id, Deletes(dep), 0, s, log, others, n)
    requires t == After(L, s, Whole(L, id, Deletes(dep), s, log, others, n))
    requires Foreign(later, id) && Legal(L, Apply(L, t, DeleteCommit(id)), later)
    requires var u := After(L, Apply(L, t, DeleteCommit(id)), later); k in L.cols && k in u.cache && u.cache[k].Plain?
    ensures var u := After(L, Apply(L, t, DeleteCommit(id)), later);
      && k in u.owner && u.owner[k] in u.fills && u.fills[u.owner[k]].text == u.cache[k].text
      && (dep in u.fills[u.owner[k]].deps ==> t.now <= u.fills[u.owner[k]].fetchAt)
  {
    InitInv(L, s0);
    hide CollectionInv, Init, Whole;
    Run(L, s0, run0);
    Run(L, s, Whole(L, id, Deletes(dep), s, log, others, n));
    DeletedRun(L, t, id, dep, later, k);
  }

  lemma InitInv(L: Layout, s: State)
    requires L.Valid() && Init(s)
    ensures CollectionInv(L, s)
  {
  }

  lemma DeletedRun(L: Layout, t: State, id: Uuid, dep: Key, later: seq<Step>, k: Key)
    requires L.Valid() && CollectionInv(L, t) && id in t.deleters && t.deleters[id] == Deleter(dep, Blocked, 0)
    requires Foreign(later, id) && id in t.used && Legal(L, Apply(L, t, DeleteCommit(id)), later)
    requires var u := After(L, Apply(L, t, DeleteCommit(id)), later); k in L.cols && k in u.cache && u.cache[k].Plain?
    ensures var u := After(L, Apply(L, t, DeleteCommit(id)), later);
      && k in u.owner && u.owner[k] in u.fills && u.fills[u.owner[k]].text == u.cache[k].text
      && (dep in u.fills[u.owner[k]].deps ==> t.now <= u.fills[u.owner[k]].fetchAt)
  {
    OneStep(L, t, DeleteCommit(id));
    var c := Apply(L, t, DeleteCommit(id));
    assert c.deleters[id] == Deleter(dep, Deleted, t.now);
    Run(L, c, later);
    ForeignKeeps(L, c, later, id);
    var u := After(L, c, later);
    assert ColOk(u, k) && BlockOk(u, id);
  }

  // ----- Creating an item -----

  /** Where the keys of an item lie: it is stored under keys that are neither collections nor lists,
      its own list and those it depends on are lists, and nothing it clears is a list. */
  ghost predicate Placed(L: Layout, i: Manager.Item, more: seq<Key>) {
    && L.ItemKeys(Manager.KeyNames(i)) && L.NoDeps(more)
    && i.globalCollection !in L.deps && i.isModified !in L.deps && i.isModifiedCollection !in L.deps
    && (forall d :: d in i.dependencyKeys ==> d in L.deps)
    && (i.dependencies == "" || i.dependencies in L.deps) && (i.globalPages == "" || i.globalPages in L.deps)
  }

  lemma ClearsPlaced(L: Layout, i: Manager.Item, more: seq<Key>)
    requires L.Valid() && Placed(L, i, more)
    ensures L.NoDeps(Manager.CollectionKeys(i, more))
  {
    Manager.ClearsExactly(i, more);
    hide Manager.CollectionKeys;
    forall k | k in Manager.CollectionKeys(i, more) ensures k !in L.deps {
      if k != "" { assert Manager.MustClear(i, more, k); }
    }
  }

  /** The calls of saving the item: the value, the clearing, and then calls that are neutral. */
  lemma SavingCalls(L: Layout, log: seq<Manager.Event>, n: nat, i: Manager.Item, lkey: Key, sent: Sentinel, more: seq<Key>, id: Uuid)
    requires L.Valid() && Manager.ItemSaved(log, n, i, lkey, sent, true, more, id) && Placed(L, i, more)
    ensures n + 1 < |log| && log[n].call == Manager.DoSetValue(lkey, Manager.KeyNames(i), i.text, sent)
    ensures log[n + 1].call == Manager.DoDeleteValue(Manager.CollectionKeys(i, more), true, id)
    ensures forall j :: n + 2 <= j < |log| ==> Neutral(L, log[j].call)
  {
    var clears := Manager.WriteClears(i, more, id);
    hide Manager.Stored, Manager.KeyNames, Manager.CollectionKeys, Manager.Registered;
    assert log[n + 1 + 0].call == clears[0];
    forall j | n + 2 <= j < |log| ensures Neutral(L, log[j].call) {
      if j < n + 1 + |clears| {
        assert log[n + 1 + (j - n - 1)].call == clears[j - n - 1];
      } else {
        RegisteringNeutral(L, log, n + 1 + |clears|, i, id);
      }
    }
  }

  lemma RegisteringNeutral(L: Layout, log: seq<Manager.Event>, n: nat, i: Manager.Item, id: Uuid)
    requires L.Valid() && Manager.Registered(log, n, i, id)
    requires L.ItemKeys(Manager.KeyNames(i)) && (forall d :: d in i.dependencyKeys ==> d in L.deps)
    requires i.dependencies == "" || i.dependencies in L.deps
    ensures forall j :: n <= j < |log| ==> Neutral(L, log[j].call)
  {
    hide Manager.Refused;
    assert forall k :: k in i.secondary ==> k in Manager.KeyNames(i);
  }

  /** What the calls of a create are, from the lock to the release. */
  ghost predicate CreateCalls(L: Layout, log: seq<Manager.Event>, n: nat, keys: seq<Key>, id: Uuid, cleared: seq<Key>) {
    && n + 4 < |log| && log[n].call == Manager.DoWriteSentinel(Create, keys, id)
    && log[n + 1].call.Server? && log[n + 1].call.answer.Some?
    && Neutral(L, log[n + 2].call) && !log[n + 2].call.DoDeleteValue?
    && log[n + 3].call == Manager.DoDeleteValue(cleared, true, id)
    && forall j :: n + 4 <= j < |log| ==> Neutral(L, log[j].call)
  }

  lemma CreatedCalls(L: Layout, log: seq<Manager.Event>, n: nat, keys: seq<Key>, a: Manager.Item, more: seq<Key>, id: Uuid,
                     result: Manager.CreateResult)
    requires L.Valid() && Manager.CreatedUnder(log, n, keys, Some(a), false, more, id, result) && !a.skipCache && Placed(L, a, more)
    requires var r := WriteSentinel(log[n].before, Create, keys, id); r.sentinel.Held? && !r.error
    ensures CreateCalls(L, log, n, keys, id, Manager.CollectionKeys(a, more))
  {
    hide Manager.ItemSaved, WriteSentinel, Manager.CollectionKeys, Manager.KeyNames, Placed, Neutral;
    var sent := WriteSentinel(log[n].before, Create, keys, id).sentinel;
    var front := log[..|log| - 1];
    assert forall j :: 0 <= j < |front| ==> front[j] == log[j];
    SavingCalls(L, front, n + 2, a, a.primary, sent, more, id);
    SetAndReleaseNeutral(L, log[n + 2].call, log[|log| - 1].call, a, more);
    forall j | n + 4 <= j < |log| ensures Neutral(L, log[j].call) {
      if j < |log| - 1 { assert Neutral(L, front[j].call); }
    }
  }

  lemma SetAndReleaseNeutral(L: Layout, set_: Manager.Call, release: Manager.Call, i: Manager.Item, more: seq<Key>)
    requires Placed(L, i, more) && set_.DoSetValue? && set_.keys == Manager.KeyNames(i) && release.DoReleaseSentinel?
    ensures Neutral(L, set_) && Neutral(L, release)
  {
  }

  // ----- A create, call by call, from the end -----

  lemma ClearRuns(L: Layout, id: Uuid, job: Job, s: State, log: seq<Manager.Event>, others: seq<seq<Step>>, k: nat, since: nat)
    requires L.Valid() && k < |log| == |others| && Interleaved(L, id, job, s, log, others, k) && job.Creates?
    requires log[k].call.DoDeleteValue? && log[k].call.tombstone && L.NoDeps(log[k].call.keys)
    requires forall c :: c in job.clears ==> c in log[k].call.keys
    requires id in s.used && id in s.creators
    requires var c := s.creators[id]; c.granted && c.clears == job.clears && c.phase == Committed && since <= c.commitAt
    requires forall j :: k < j < |log| ==> Neutral(L, log[j].call)
    ensures Runs(L, id, job, since, s, log, others, k)
  {
    hide Interleaved, Runs, Own, Enabled, Legal, After, Apply, Neutral, Manager.Effect;
    var t, u := OneCall(L, id, job, s, log, others, k, since);
    Clears(L, log[k], id, job, t);
    WindsUpRuns(L, id, job, u, log, others, k + 1, since);
  }

  lemma Clears(L: Layout, e: Manager.Event, id: Uuid, job: Job, t: State)
    requires L.Valid() && e.call.DoDeleteValue? && Clearing(t, id) && Fits(L, e.call, id, job, t) && Legal(L, t, Own(e, id, job, t))
    ensures var u := After(L, t, Own(e, id, job, t));
      u.used == t.used && u.creators == t.creators[id := t.creators[id].(phase := Cleared)]
  {
    hide DeleteValue;
    var step := CreateClear(id, e.call.keys, e.call.id);
    AsRun(L, t, step);
    assert Own(e, id, job, t) == [step];
  }

  lemma SaveRuns(L: Layout, id: Uuid, job: Job, s: State, log: seq<Manager.Event>, others: seq<seq<Step>>, k: nat, since: nat)
    requires L.Valid() && k + 1 < |log| == |others| && Interleaved(L, id, job, s, log, others, k) && job.Creates?
    requires Neutral(L, log[k].call) && !log[k].call.DoDeleteValue?
    requires log[k + 1].call.DoDeleteValue? && log[k + 1].call.tombstone && L.NoDeps(log[k + 1].call.keys)
    requires forall c :: c in job.clears ==> c in log[k + 1].call.keys
    requires id in s.used && id in s.creators
    requires var c := s.creators[id]; c.granted && c.clears == job.clears && c.phase == Committed && since <= c.commitAt
    requires forall j :: k + 1 < j < |log| ==> Neutral(L, log[j].call)
    ensures Runs(L, id, job, since, s, log, others, k)
  {
    hide Interleaved, Runs, Own, Enabled, Legal, After, Apply, Neutral, Manager.Effect;
    var t, u := OneCall(L, id, job, s, log, others, k, since);
    NeutralStays(L, log[k], id, job, t);
    ClearRuns(L, id, job, u, log, others, k + 1, since);
  }

  lemma CommitStep(L: Layout, e: Manager.Event, id: Uuid, job: Job, t: State)
    requires L.Valid() && e.call.Server? && Fits(L, e.call, id, job, t) && Legal(L, t, Own(e, id, job, t))
    ensures var u := After(L, t, Own(e, id, job, t));
      && u.used == t.used && id in u.creators
      && u.creators[id] == t.creators[id].(phase := Committed, commitAt := t.now)
  {
    AsRun(L, t, CreateCommit(id));
    assert Own(e, id, job, t) == [CreateCommit(id)];
  }

  lemma LocksForCreate(L: Layout, e: Manager.Event, id: Uuid, job: Job, t: State)
    requires L.Valid() && e.call.DoWriteSentinel? && job.Creates? && t.cache == e.before
    requires Fits(L, e.call, id, job, t) && Legal(L, t, Own(e, id, job, t))
    ensures var u := After(L, t, Own(e, id, job, t));
      && id in u.used && id in u.creators && u.now == t.now + 1
      && u.creators[id] == Creator(WriteSentinel(e.before, Create, e.call.keys, id).sentinel.Held?, job.clears, Creating, 0)
  {
    hide WriteSentinel;
    var step := CreateBegin(id, e.call.keys, job.clears);
    AsRun(L, t, step);
    assert Own(e, id, job, t) == [step];
  }

  lemma AskRuns(L: Layout, id: Uuid, job: Job, s: State, log: seq<Manager.Event>, others: seq<seq<Step>>, k: nat, since: nat)
    requires L.Valid() && k + 2 < |log| == |others| && Interleaved(L, id, job, s, log, others, k) && job.Creates?
    requires log[k].call.Server? && log[k].call.answer.Some? && Neutral(L, log[k + 1].call) && !log[k + 1].call.DoDeleteValue?
    requires log[k + 2].call.DoDeleteValue? && log[k + 2].call.tombstone && L.NoDeps(log[k + 2].call.keys)
    requires forall c :: c in job.clears ==> c in log[k + 2].call.keys
    requires id in s.used && id in s.creators && s.creators[id] == Creator(true, job.clears, Creating, 0) && since <= s.now
    requires forall j :: k + 2 < j < |log| ==> Neutral(L, log[j].call)
    ensures Runs(L, id, job, since, s, log, others, k)
  {
    hide Interleaved, Runs, Own, Enabled, Legal, After, Apply, Neutral, Manager.Effect;
    var t, u := OneCall(L, id, job, s, log, others, k, since);
    CommitStep(L, log[k], id, job, t);
    SaveRuns(L, id, job, u, log, others, k + 1, since);
  }

  lemma CreateRuns(L: Layout, id: Uuid, job: Job, s: State, log: seq<Manager.Event>, others: seq<seq<Step>>, n: nat, keys: seq<Key>, cleared: seq<Key>)
    requires L.Valid() && n <= |log| == |others| && Interleaved(L, id, job, s, log, others, n) && job.Creates?
    requires CreateCalls(L, log, n, keys, id, cleared) && L.NoDeps(keys) && L.NoDeps(cleared)
    requires forall c :: c in job.clears ==> c in cleared
    requires WriteSentinel(log[n].before, Create, keys, id).sentinel.Held?
    ensures Runs(L, id, job, s.now, s, log, others, n)
  {
    hide Interleaved, Runs, Own, Enabled, Legal, After, Apply, Neutral, WriteSentinel, Manager.Effect;
    var t, u := OneCall(L, id, job, s, log, others, n, s.now);
    LocksForCreate(L, log[n], id, job, t);
    AskRuns(L, id, job, u, log, others, n + 1, s.now);
  }

  /** CreateItem is a creator: with its lock held, an answer and the cache not passed by, whatever the
      other clients do between its calls, they and its calls are a legal run in which it clears every
      key that it must, after the server's answer. */
  lemma CreateClearsAll(L: Layout, log: seq<Manager.Event>, n: nat, i: Manager.Item, a: Manager.Item, more: seq<Key>, clears: seq<Key>,
                        id: Uuid, result: Manager.CreateResult, s: State, others: seq<seq<Step>>)
    requires L.Valid() && Manager.ItemCreated(log, n, i, Some(a), false, more, id, result) && !a.skipCache
    requires Placed(L, a, more) && L.NoDeps(Manager.GetItemLockKeys(Create, i))
    requires WriteSentinel(log[n].before, Create, Manager.GetItemLockKeys(Create, i), id).sentinel.Held?
    requires forall c :: c in clears ==> Manager.MustClear(a, more, c)
    requires |others| == |log| && Interleaved(L, id, Creates(clears), s, log, others, n)
    ensures Runs(L, id, Creates(clears), s.now, s, log, others, n)
  {
    hide Interleaved, Runs, WriteSentinel, Manager.ItemSaved, Manager.CollectionKeys, CreateCalls, Placed;
    var keys := Manager.GetItemLockKeys(Create, i);
    Manager.HeldNoError(log[n].before, keys, id);
    CreatedCalls(L, log, n, keys, a, more, id, result);
    ClearsPlaced(L, a, more);
    Manager.ClearsExactly(a, more);
    CreateRuns(L, id, Creates(clears), s, log, others, n, keys, Manager.CollectionKeys(a, more));
  }

  /** Read after write, of the operation: in a reachable state it creates its item and returns, others
      go on; whatever is then cached in a collection that it had to clear was fetched after the server
      answered it. */
  lemma CreatedIsVisible(L: Layout, s0: State, run0: seq<Step>, s: State, clears: seq<Key>, id: Uuid, log: seq<Manager.Event>,
                         others: seq<seq<Step>>, n: nat, t: State, later: seq<Step>, k: Key)
    requires L.Valid() && Init(s0) && Legal(L, s0, run0) && s == After(L, s0, run0)
    requires n <= |log| == |others| && Runs(L, id, Creates(clears), s.now, s, log, others, n)
    requires t == After(L, s, Whole(L, id, Creates(clears), s, log, others, n))
    requires Foreign(later, id) && Legal(L, Apply(L, t, CreateReturn(id)), later)
    requires var u := After(L, Apply(L, t, CreateReturn(id)), later); k in clears && k in L.cols && k in u.cache && u.cache[k].Plain?
    ensures var u := After(L, Apply(L, t, CreateReturn(id)), later);
      && k in u.owner && u.owner[k] in u.fills && u.fills[u.owner[k]].text == u.cache[k].text
      && id in u.creators && s.now <= u.creators[id].commitAt < u.fills[u.owner[k]].fetchAt
  {
    InitInv(L, s0);
    hide CollectionInv, Init, Whole;
    Run(L, s0, run0);
    Run(L, s, Whole(L, id, Creates(clears), s, log, others, n));
    ReturnedRun(L, t, id, clears, s.now, later, k);
  }

  lemma ReturnedRun(L: Layout, t: State, id: Uuid, clears: seq<Key>, since: nat, later: seq<Step>, k: Key)
    requires L.Valid() && CollectionInv(L, t) && Done(t, id, Creates(clears), since)
    requires Foreign(later, id) && Legal(L, Apply(L, t, CreateReturn(id)), later)
    requires var u := After(L, Apply(L, t, CreateReturn(id)), later); k in clears && k in L.cols && k in u.cache && u.cache[k].Plain?
    ensures var u := After(L, Apply(L, t, CreateReturn(id)), later);
      && k in u.owner && u.owner[k] in u.fills && u.fills[u.owner[k]].text == u.cache[k].text
      && id in u.creators && since <= u.creators[id].commitAt < u.fills[u.owner[k]].fetchAt
  {
    OneStep(L, t, CreateReturn(id));
    var c := Apply(L, t, CreateReturn(id));
    Run(L, c, later);
    ForeignKeeps(L, c, later, id);
    var u := After(L, c, later);
    assert ColOk(u, k) && ClearOk(u, id);
  }
}
