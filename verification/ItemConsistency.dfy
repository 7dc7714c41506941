/** Consistency of one cached item over every run of the item protocol. */
module ItemConsistency {
  import opened Options
  import opened Sentinels
  import opened CacheOps
  import opened SlotOps
  import opened ItemProtocol

  // ----- Fill safety: any mix of readers, writers, deletes, failures and evictions -----

  lemma {:induction false} HistoryRun(policy: Policy, s: State, run: seq<Step>)
    requires HistoryInv(s) && Legal(policy, s, run)
    ensures HistoryInv(After(policy, s, run))
    decreases run
  {
    if run != [] {
      HistoryStep(s, run[0]);
      HistoryRun(policy, Apply(s, run[0]), run[1..]);
    }
  }

  /** For every run: a read that installed its value saw no mutation try to lock the key since it
      took its lock, and a write that installed its value saw no other mutation lock the key and
      no other write save to it. */
  lemma FillSafety(s: State, run: seq<Step>)
    requires Init(s) && Legal(AnyMix, s, run)
    ensures var t := After(AnyMix, s, run);
      forall u :: u in t.clients ==> ReadFillSafe(t, u) && WriteFillSafe(t, u)
  {
    HistoryRun(AnyMix, s, run);
  }

  // ----- The guarded workload -----

  /** A writer that has acted on the server and will still check the key before it is done. */
  ghost predicate Excuse(s: State, u: Uuid) {
    u in s.clients && s.clients[u].role == Writer && s.clients[u].phase == Acted && s.server == s.clients[u].val
  }

  ghost predicate ServerIs(s: State, val: Option<string>, except: Option<Uuid>) {
    s.server == val || exists u :: Some(u) != except && Excuse(s, u)
  }

  ghost predicate WriterLockOk(s: State) {
    s.slot.Some? && s.slot.value.Lock? && s.slot.value.kind == WriteLock && s.slot.value.conflicts == [] ==>
      var w := s.slot.value.id;
      w in s.clients && (s.clients[w].phase == Acted ==> ServerIs(s, s.clients[w].val, Some(w)))
  }

  ghost predicate PlainOk(s: State) {
    s.slot.Some? && s.slot.value.Plain? ==> ServerIs(s, Some(s.slot.value.text), None)
  }

  ghost predicate ClientsOk(s: State) {
    forall u :: u in s.clients ==>
      && (IsMutation(s.clients[u]) ==> s.clients[u].granted)
      && (s.clients[u].role == Writer && s.clients[u].phase == Acted ==> s.clients[u].val.Some?)
      && (s.clients[u].role == Deleter ==> s.clients[u].phase != Saved)
  }

  /** A delete keeps the key locked until the server has deleted. */
  ghost predicate DeletersHold(s: State) {
    forall d :: ToAct(s, d) && s.clients[d].role == Deleter ==> s.slot == Some(LockOf(Held(DeleteLock, d)))
  }

  /** While a read holds the key the server cannot get away from what the read is going to store. */
  ghost predicate ReadLockOk(s: State) {
    s.slot.Some? && s.slot.value.Lock? && s.slot.value.kind == ReadLock ==>
      var r := s.slot.value.id;
      && r in s.clients
      && (s.clients[r].phase == Locked ==> MissSafe(s))
      && (s.clients[r].phase == Acted && s.clients[r].val.Some? ==>
            s.clients[r].val == s.server && forall u :: !ToAct(s, u))
  }

  ghost predicate GuardInv(s: State) {
    LocksOwned(s) && ClientsOk(s) && WriterLockOk(s) && PlainOk(s) && DeletersHold(s) && ReadLockOk(s)
  }

  /** Evidence that the server's value is accounted for survives a step that does not act on the
      server and does not retire the excusing writer. */
  lemma ExcuseSurvives(s: State, t: State, val: Option<string>, except: Option<Uuid>)
    requires ServerIs(s, val, except) && s.server == t.server
    requires forall u :: Excuse(s, u) && Some(u) != except && s.server != val ==> Excuse(t, u)
    ensures ServerIs(t, val, except)
  {
    if s.server != val {
      var u :| Some(u) != except && Excuse(s, u);
      assert Excuse(t, u);
    }
  }

  lemma GuardAct(s: State, id: Uuid, text: string)
    requires GuardInv(s) && Enabled(s, Act(id, text))
    ensures GuardInv(Apply(s, Act(id, text)))
  {
    var t := Apply(s, Act(id, text));
    LocksOwnedStep(s, Act(id, text));
    assert forall u :: ToAct(t, u) ==> ToAct(s, u) && u != id;
    if IsMutation(s.clients[id]) {
      assert ToAct(s, id);
      if s.clients[id].role == Writer { assert Excuse(t, id); }
    } else {
      assert forall u :: Excuse(s, u) ==> Excuse(t, u);
    }
  }

  lemma GuardSave(s: State, id: Uuid)
    requires GuardInv(s) && Enabled(s, Save(id))
    ensures GuardInv(Apply(s, Save(id)))
  {
    hide LocksOwned;
    var t := Apply(s, Save(id));
    LocksOwnedStep(s, Save(id));
    assert forall u :: ToAct(t, u) <==> ToAct(s, u);
    assert forall u :: u != id && Excuse(s, u) ==> Excuse(t, u);
    assert s.slot.Some? ==> t.slot.None? || t.slot == s.slot || t.slot.value.Lock? || ExactLock(s, id);
    if t.slot.Some? && t.slot.value.Plain? {
      if s.slot == t.slot {
        ExcuseSurvives(s, t, Some(t.slot.value.text), None);
      } else if s.clients[id].role == Writer {
        ExcuseSurvives(s, t, s.clients[id].val, Some(id));
      }
    }
  }

  lemma GuardOther(s: State, step: Step)
    requires GuardInv(s) && Enabled(s, step) && Allowed(Guarded, s, step)
    requires !step.Act? && !step.Save?
    ensures GuardInv(Apply(s, step))
  {
    hide LocksOwned;
    var t := Apply(s, step);
    LocksOwnedStep(s, step);
    assert forall u :: Excuse(s, u) ==> Excuse(t, u);
    if t.slot.Some? && t.slot.value.Plain? {
      ExcuseSurvives(s, t, Some(t.slot.value.text), None);
    }
    if t.slot.Some? && t.slot == s.slot && t.slot.value.Lock? && t.slot.value.id in s.clients {
      var w := t.slot.value.id;
      if ServerIs(s, s.clients[w].val, Some(w)) { ExcuseSurvives(s, t, s.clients[w].val, Some(w)); }
    }
    assert !step.Begin? ==> forall u :: ToAct(t, u) ==> ToAct(s, u);
  }

  lemma GuardStep(s: State, step: Step)
    requires GuardInv(s) && Enabled(s, step) && Allowed(Guarded, s, step)
    ensures GuardInv(Apply(s, step))
  {
    hide GuardInv, Enabled, Apply, Allowed;
    match step
    case Act(id, text) => GuardAct(s, id, text);
    case Save(id) => GuardSave(s, id);
    case _ => GuardOther(s, step);
  }

  lemma {:induction false} GuardRun(s: State, run: seq<Step>)
    requires GuardInv(s) && Legal(Guarded, s, run)
    ensures GuardInv(After(Guarded, s, run))
    decreases run
  {
    hide GuardInv, Apply, Allowed;
    if run != [] {
      GuardStep(s, run[0]);
      GuardRun(Apply(s, run[0]), run[1..]);
    }
  }

  lemma QuietServer(s: State)
    requires PlainOk(s)
    ensures Consistent(s)
  {
    assert forall u :: Excuse(s, u) ==> u in InFlight(s);
  }

  /** The main theorem. Any number of writers, deletes and readers, with failures, evictions and
      tombstones at any moment: as long as the three guards are kept, once no mutation is in flight a
      cached value is the last one the server committed. */
  lemma GuardedConsistent(s: State, run: seq<Step>)
    requires Init(s) && Legal(Guarded, s, run)
    ensures Consistent(After(Guarded, s, run))
  {
    GuardRun(s, run);
    QuietServer(After(Guarded, s, run));
  }

  /** A run of one workload is a run of another, step by step. */
  lemma {:induction false} HitsAreGuarded(s: State, run: seq<Step>)
    requires Legal(HitsOnly, s, run)
    ensures Legal(Guarded, s, run) && After(Guarded, s, run) == After(HitsOnly, s, run)
    decreases run
  {
    hide Apply;
    if run != [] {
      HitsAreGuarded(Apply(s, run[0]), run[1..]);
    }
  }

  /** Readers only hit, any number of overlapping writers, some of them failing: whatever the order of
      lock, commit and save, once none is in flight a cached value is the last one committed. */
  lemma HitsOnlyConsistent(s: State, run: seq<Step>)
    requires Init(s) && Legal(HitsOnly, s, run)
    ensures Consistent(After(HitsOnly, s, run))
  {
    HitsAreGuarded(s, run);
    GuardedConsistent(s, run);
  }

  // ----- Two overlapping writers and readers that lock on a miss -----

  ghost predicate AllWriters(s: State) { forall u :: u in InFlight(s) ==> s.clients[u].role == Writer }

  ghost predicate AtMostTwo(F: set<Uuid>) {
    forall a, b, c :: a in F && b in F && c in F ==> a == b || b == c || a == c
  }

  /** What the content of the key says about who is in flight. */
  ghost predicate CrowdOk(s: State) {
    if s.slot.None? then InFlight(s) == {}
    else match s.slot.value
      case Names(_) => false
      case Tombstone(_) => InFlight(s) == {}
      case Plain(_) => AllWriters(s) && AtMostOne(InFlight(s))
      case Lock(kind, id, conflicts) =>
        match kind
        case ReadLock => InFlight(s) == {}
        case DeleteLock => InFlight(s) == {id}
        case WriteLock =>
          && AllWriters(s)
          && (if conflicts == [] then AtMostTwo(InFlight(s) + {id}) else InFlight(s) <= {id})
          && (id in s.clients && s.clients[id].phase == Failed ==> InFlight(s) == {})
  }

  ghost predicate TwoInv(s: State) { GuardInv(s) && CrowdOk(s) }

  /** How a step changes the set of mutations in flight. */
  lemma InFlightStep(s: State, step: Step)
    requires Enabled(s, step)
    ensures InFlight(Apply(s, step)) ==
      match step
      case Begin(id, role) => InFlight(s) + {id}
      case Fail(id) => if s.clients[id].role == Writer then InFlight(s) - {id} else InFlight(s)
      case Save(id) => InFlight(s) - {id}
      case Release(id) => InFlight(s) - {id}
      case _ => InFlight(s)
  {
    var t := Apply(s, step);
    assert forall u :: u in s.clients && (step.Drop? || step.Force? || u != step.id) ==> t.clients[u] == s.clients[u];
  }

  /** What the two-writer workload allows keeps the guards. */
  lemma TwoAllowed(s: State, step: Step)
    requires TwoInv(s) && Enabled(s, step) && Allowed(TwoWriters, s, step)
    ensures Allowed(Guarded, s, step)
  {
    assert forall u :: ToAct(s, u) ==> u in InFlight(s);
  }

  lemma CrowdBegin(s: State, id: Uuid, role: Role)
    requires TwoInv(s) && Enabled(s, Begin(id, role)) && Allowed(TwoWriters, s, Begin(id, role))
    ensures CrowdOk(Apply(s, Begin(id, role)))
  {
    InFlightStep(s, Begin(id, role));
    assert Grants(s.slot, Held(KindFor(role), id));
    assert forall u :: u in InFlight(s) ==> u in s.clients && u != id;
    hide InFlight;
  }

  lemma CrowdAct(s: State, id: Uuid, text: string)
    requires TwoInv(s) && Enabled(s, Act(id, text))
    ensures CrowdOk(Apply(s, Act(id, text)))
  {
    InFlightStep(s, Act(id, text));
    assert forall u :: u in InFlight(s) ==> u in s.clients;
    hide InFlight;
  }

  lemma CrowdSave(s: State, id: Uuid)
    requires TwoInv(s) && Enabled(s, Save(id))
    ensures CrowdOk(Apply(s, Save(id)))
  {
    hide PlainOk, WriterLockOk, ReadLockOk, DeletersHold;
    InFlightStep(s, Save(id));
    assert s.clients[id].role == Writer ==> id in InFlight(s);
    assert forall u :: u in InFlight(s) ==> u in s.clients;
    hide InFlight;
  }

  lemma CrowdOther(s: State, step: Step)
    requires TwoInv(s) && Enabled(s, step) && Allowed(TwoWriters, s, step)
    requires !step.Begin? && !step.Act? && !step.Save?
    ensures CrowdOk(Apply(s, step))
  {
    hide PlainOk, WriterLockOk, ReadLockOk;
    InFlightStep(s, step);
    assert forall u :: u in s.clients && Pending(s.clients[u]) ==> u in InFlight(s);
  }

  lemma TwoStep(s: State, step: Step)
    requires TwoInv(s) && Enabled(s, step) && Allowed(TwoWriters, s, step)
    ensures TwoInv(Apply(s, step)) && Allowed(Guarded, s, step)
  {
    hide GuardInv, CrowdOk, Enabled, Apply, Allowed;
    TwoAllowed(s, step);
    GuardStep(s, step);
    match step
    case Begin(id, role) => CrowdBegin(s, id, role);
    case Act(id, text) => CrowdAct(s, id, text);
    case Save(id) => CrowdSave(s, id);
    case _ => CrowdOther(s, step);
  }

  lemma {:induction false} TwoAreGuarded(s: State, run: seq<Step>)
    requires TwoInv(s) && Legal(TwoWriters, s, run)
    ensures Legal(Guarded, s, run) && After(Guarded, s, run) == After(TwoWriters, s, run)
    ensures TwoInv(After(TwoWriters, s, run))
    decreases run
  {
    hide TwoInv, Apply, Allowed;
    if run != [] {
      TwoStep(s, run[0]);
      TwoAreGuarded(Apply(s, run[0]), run[1..]);
    }
  }

  /** At most two writers overlap and any number of readers lock on a miss: once no mutation is in
      flight a cached value is the server's, and while the key is empty or held by a reader no
      mutation is in flight at all. */
  lemma TwoWritersConsistent(s: State, run: seq<Step>)
    requires Init(s) && Legal(TwoWriters, s, run)
    ensures var t := After(TwoWriters, s, run);
      && Consistent(t)
      && (t.slot.None? || (t.slot.value.Lock? && t.slot.value.kind == ReadLock) ==> InFlight(t) == {})
  {
    TwoAreGuarded(s, run);
    QuietServer(After(TwoWriters, s, run));
  }
}
