/** Storing a collection, as a fill of the collection protocol: the calls of SaveItemsToCollection,
    with any legal steps of other clients between them, are the steps in which a fill registers with
    its lists and installs. */
module CollectionSimulation {
  import opened Options
  import opened Sentinels
  import opened CacheOps
  import opened SlotOps
  import opened CollectionProtocol
  import opened CollectionSafety
  import Manager = CacheManager

  predicate ByFill(step: Step, id: Uuid) {
    (step.FillFetch? || step.FillRegister? || step.FillInstall? || step.FillRelease?) && step.id == id
  }

  ghost predicate Foreign(run: seq<Step>, id: Uuid) { forall k :: 0 <= k < |run| ==> !ByFill(run[k], id) }

  lemma FillUntouched(L: Layout, s: State, step: Step, id: Uuid)
    requires L.Valid() && CollectionInv(L, s) && Enabled(L, s, step) && id in s.fills && !ByFill(step, id)
    ensures id in Apply(L, s, step).fills && Apply(L, s, step).fills[id] == s.fills[id]
  {
    assert id in s.used by { assert FillOk(L, s, id); }
    hide CollectionInv, Occupies, WriteSentinel, SetValue, ReleaseSentinel, DeleteValue, Flush, GetValue, ClearDependencies, AddDependency;
  }

  lemma {:induction false} ForeignKeeps(L: Layout, s: State, run: seq<Step>, id: Uuid)
    requires L.Valid() && CollectionInv(L, s) && Legal(L, s, run) && Foreign(run, id) && id in s.fills
    ensures var t := After(L, s, run); CollectionInv(L, t) && id in t.fills && t.fills[id] == s.fills[id]
    decreases run
  {
    hide CollectionInv, Enabled, Apply;
    if run != [] {
      OneStep(L, s, run[0]);
      assert !ByFill(run[0], id);
      FillUntouched(L, s, run[0], id);
      assert forall k :: 0 <= k < |run[1..]| ==> run[1..][k] == run[k + 1];
      ForeignKeeps(L, Apply(L, s, run[0]), run[1..], id);
    }
  }

  /** What the others do before a call leaves the cache as the call finds it. */
  ghost predicate Before(L: Layout, s: State, others: seq<Step>, id: Uuid, e: Manager.Event)
    requires L.Valid()
  {
    Legal(L, s, others) && Foreign(others, id) && After(L, s, others).cache == e.before
  }

  lemma Then(L: Layout, s: State, others: seq<Step>, step: Step)
    requires L.Valid() && Legal(L, s, others) && Enabled(L, After(L, s, others), step)
    ensures Legal(L, s, others + [step]) && After(L, s, others + [step]) == Apply(L, After(L, s, others), step)
  {
    hide Apply, Enabled;
    assert [step][1..] == [];
    LegalConcat(L, s, others, [step]);
  }

  lemma RegisterRefines(L: Layout, t: State, e: Manager.Event, id: Uuid)
    requires L.Valid() && id in t.fills && t.fills[id].phase == Fetched && t.cache == e.before
    requires e.call == Manager.DoAddDependency(t.fills[id].deps, [t.fills[id].col])
    ensures Enabled(L, t, FillRegister(id))
    ensures var u := Apply(L, t, FillRegister(id));
      && u.cache == Manager.Effect(e)
      && u.fills[id] == t.fills[id].(phase := if Manager.Refused(e) then Over else Registered)
  {
    hide AddDependency;
  }

  lemma InstallRefines(L: Layout, t: State, e: Manager.Event, id: Uuid)
    requires L.Valid() && id in t.fills && t.fills[id].phase == Registered && t.cache == e.before
    requires var f := t.fills[id]; e.call == Manager.DoSetValue(f.col, [f.col], f.text, Held(ReadLock, id))
    ensures Enabled(L, t, FillInstall(id))
    ensures var u := Apply(L, t, FillInstall(id));
      && u.cache == Manager.Effect(e) && id in u.fills
      && (u.fills[id].phase == Installed <==> Manager.Stored(e))
  {
    hide SetValue;
  }

  lemma NothingToRegister(L: Layout, t: State, id: Uuid)
    requires L.Valid() && id in t.fills && t.fills[id].phase == Fetched && t.fills[id].deps == []
    ensures Enabled(L, t, FillRegister(id))
    ensures Apply(L, t, FillRegister(id)) == t.(now := t.now + 1, fills := t.fills[id := t.fills[id].(phase := Registered)])
  {
    assert NonEmpty([]) == [];
  }

  /** The lists that the calls from n on extend. */
  ghost function Extended(log: seq<Manager.Event>, n: nat): seq<Key>
    requires n < |log|
  {
    if log[n].call.DoAddDependency? then log[n].call.dkeys else []
  }

  /** A fill that the server has answered, and the calls that store its answer. */
  ghost predicate Storing(s: State, log: seq<Manager.Event>, n: nat, i: Manager.Item, colItems: seq<Manager.Item>,
                          isGlobal: bool, id: Uuid) {
    && id in s.fills && s.fills[id].phase == Fetched
    && var f := s.fills[id];
       && Manager.CollectionSaved(log, n, i, colItems, f.text, f.col, f.col, Held(ReadLock, id), isGlobal)
       && n < |log| && f.deps == Extended(log, n)
  }

  /** The lists a fill has registered with are exactly those that have to name its collection. */
  lemma RegistersEverywhere(s: State, log: seq<Manager.Event>, n: nat, i: Manager.Item, colItems: seq<Manager.Item>,
                            isGlobal: bool, id: Uuid)
    requires Storing(s, log, n, i, colItems, isGlobal, id)
    ensures forall d :: d in s.fills[id].deps <==> Manager.MustName(i, colItems, s.fills[id].col, isGlobal, d)
  {
    hide Manager.MustName;
  }

  /** Whatever the other clients do before each call, the calls are the steps of a fill, in a legal
      run that leaves the cache as the last call does, and installs if and only if that stored. */
  lemma CollectionSimulates(L: Layout, s: State, log: seq<Manager.Event>, n: nat, i: Manager.Item, colItems: seq<Manager.Item>,
                            isGlobal: bool, id: Uuid, first: seq<Step>, second: seq<Step>)
    returns (run: seq<Step>)
    requires L.Valid() && CollectionInv(L, s) && Storing(s, log, n, i, colItems, isGlobal, id)
    requires Before(L, s, first, id, log[n])
    requires var t := After(L, s, first);
      n + 1 < |log| && Enabled(L, t, FillRegister(id)) ==> Before(L, Apply(L, t, FillRegister(id)), second, id, log[n + 1])
    ensures Legal(L, s, run)
    ensures var t, last := After(L, s, run), log[|log| - 1];
      && t.cache == Manager.Effect(last) && id in t.fills
      && (t.fills[id].phase == Installed <==> Manager.Stored(last))
  {
    var t := After(L, s, first);
    ForeignKeeps(L, s, first, id);
    hide CollectionInv, Apply, Enabled, Legal, After, Manager.Effect, Manager.Stored, Manager.Refused, Manager.MustName;
    if log[n].call.DoAddDependency? {
      RegisterRefines(L, t, log[n], id);
      Then(L, s, first, FillRegister(id));
      run := first + [FillRegister(id)];
      if Manager.Refused(log[n]) {
        NotStored(log[n]);
      } else {
        OneStep(L, t, FillRegister(id));
        run := Finish(L, Apply(L, t, FillRegister(id)), log, n + 1, id, s, run, second);
      }
    } else {
      NothingToRegister(L, t, id);
      Then(L, s, first, FillRegister(id));
      InstallRefines(L, Apply(L, t, FillRegister(id)), log[n], id);
      run := first + [FillRegister(id)];
      Then(L, s, run, FillInstall(id));
      run := run + [FillInstall(id)];
    }
  }

  lemma NotStored(e: Manager.Event)
    requires e.call.DoAddDependency?
    ensures !Manager.Stored(e)
  {
  }

  /** The second call: others, and then the install. */
  lemma Finish(L: Layout, u: State, log: seq<Manager.Event>, n: nat, id: Uuid, s: State, before: seq<Step>, second: seq<Step>)
    returns (run: seq<Step>)
    requires L.Valid() && CollectionInv(L, u) && Legal(L, s, before) && After(L, s, before) == u
    requires id in u.fills && u.fills[id].phase == Registered && n < |log| && Before(L, u, second, id, log[n])
    requires var f := u.fills[id]; log[n].call == Manager.DoSetValue(f.col, [f.col], f.text, Held(ReadLock, id))
    ensures Legal(L, s, run)
    ensures var t := After(L, s, run);
      && t.cache == Manager.Effect(log[n]) && id in t.fills
      && (t.fills[id].phase == Installed <==> Manager.Stored(log[n]))
  {
    ForeignKeeps(L, u, second, id);
    LegalConcat(L, s, before, second);
    hide CollectionInv, Apply, Enabled, Legal, After, Manager.Effect, Manager.Stored;
    InstallRefines(L, After(L, u, second), log[n], id);
    Then(L, s, before + second, FillInstall(id));
    run := before + second + [FillInstall(id)];
  }
}
