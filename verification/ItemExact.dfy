/** The three guards are exact: in every state that the guarded workload can be in, breaking one of
    them by a single step makes a stale value possible, and keeping it does not. */
module ItemExact {
  import opened Options
  import opened Sentinels
  import opened CacheOps
  import opened SlotOps
  import opened ItemProtocol
  import opened ItemConsistency

  ghost predicate Reaches(s: State, t: State) {
    exists run :: Legal(Guarded, s, run) && After(Guarded, s, run) == t
  }

  ghost predicate CanGoStale(s: State) { exists t :: Reaches(s, t) && Stale(t) }

  /** The step, kept or not, and then the guarded workload again. */
  ghost predicate LeadsAstray(s: State, step: Step)
    requires Enabled(s, step)
  {
    CanGoStale(Apply(s, step))
  }

  lemma ReachesItself(s: State)
    ensures Reaches(s, s)
  {
    assert Legal(Guarded, s, []) && After(Guarded, s, []) == s;
  }

  lemma ReachesBy(s: State, step: Step, t: State)
    requires Enabled(s, step) && Allowed(Guarded, s, step) && Reaches(Apply(s, step), t)
    ensures Reaches(s, t)
  {
    var rest :| Legal(Guarded, Apply(s, step), rest) && After(Guarded, Apply(s, step), rest) == t;
    var run := [step] + rest;
    assert run[0] == step && run[1..] == rest;
    assert Legal(Guarded, s, run) && After(Guarded, s, run) == t;
  }

  lemma {:induction false} RunThen(s: State, run: seq<Step>, t: State, u: State)
    requires Legal(Guarded, s, run) && After(Guarded, s, run) == t && Reaches(t, u)
    ensures Reaches(s, u)
    decreases run
  {
    if run != [] {
      RunThen(Apply(s, run[0]), run[1..], t, u);
      ReachesBy(s, run[0], u);
    }
  }

  lemma Back(s: State, t: State)
    requires Reaches(s, t) && CanGoStale(t)
    ensures CanGoStale(s)
  {
    var run :| Legal(Guarded, s, run) && After(Guarded, s, run) == t;
    var u :| Reaches(t, u) && Stale(u);
    RunThen(s, run, t, u);
  }

  lemma BackBy(s: State, step: Step)
    requires Enabled(s, step) && Allowed(Guarded, s, step) && CanGoStale(Apply(s, step))
    ensures CanGoStale(s)
  {
    var u :| Reaches(Apply(s, step), u) && Stale(u);
    ReachesBy(s, step, u);
  }

  lemma KeptStaysConsistent(s: State)
    requires GuardInv(s)
    ensures !CanGoStale(s)
  {
    forall t | Reaches(s, t) ensures !Stale(t) {
      var run :| Legal(Guarded, s, run) && After(Guarded, s, run) == t;
      GuardRun(s, run);
      QuietServer(t);
    }
  }

  // ----- Letting the others finish -----

  /** What no save and no release of somebody else's changes. */
  predicate Inert(slot: Slot) {
    slot.None? || slot.value.Tombstone? || (slot.value.Lock? && slot.value.kind != WriteLock)
  }

  /** Every mutation in flight can go on to its end. */
  predicate CanSettle(s: State) {
    forall u :: u in s.clients ==>
      && (s.clients[u].role == Writer && s.clients[u].phase == Acted ==> s.clients[u].val.Some?)
      && (s.clients[u].role == Deleter ==> s.clients[u].phase != Saved)
  }

  lemma ActOne(s: State, u: Uuid, text: string) returns (t: State)
    requires ToAct(s, u) && CanSettle(s)
    ensures Reaches(s, t) && t.slot == s.slot && CanSettle(t) && InFlight(t) == InFlight(s)
    ensures u in t.clients && t.clients == s.clients[u := t.clients[u]] && t.clients[u].role == s.clients[u].role
    ensures t.clients[u].phase == Acted && t.server == if s.clients[u].role == Writer then Some(text) else None
  {
    t := Apply(s, Act(u, text));
    InFlightStep(s, Act(u, text));
    ReachesItself(t);
    ReachesBy(s, Act(u, text), t);
  }

  lemma SettleOne(s: State, u: Uuid) returns (t: State)
    requires u in InFlight(s) && !ToAct(s, u) && Inert(s.slot) && CanSettle(s)
    requires s.slot != Some(LockOf(Held(DeleteLock, u)))
    ensures Reaches(s, t) && t.slot == s.slot && t.server == s.server && CanSettle(t) && InFlight(t) == InFlight(s) - {u}
    ensures u in t.clients && t.clients == s.clients[u := t.clients[u]]
  {
    var last := if s.clients[u].role == Writer then Save(u) else Release(u);
    t := Apply(s, last);
    InFlightStep(s, last);
    ReachesItself(t);
    ReachesBy(s, last, t);
  }

  lemma ReachesAll(s: State, t: State, u: State)
    requires Reaches(s, t) && Reaches(t, u)
    ensures Reaches(s, u)
  {
    var run :| Legal(Guarded, s, run) && After(Guarded, s, run) == t;
    RunThen(s, run, t, u);
  }

  /** One mutation acts, if it has still to, and settles. */
  lemma FinishOne(s: State, u: Uuid, text: string) returns (t: State)
    requires u in InFlight(s) && Inert(s.slot) && CanSettle(s)
    requires s.slot != Some(LockOf(Held(DeleteLock, u)))
    ensures Reaches(s, t) && t.slot == s.slot && CanSettle(t) && InFlight(t) == InFlight(s) - {u}
    ensures u in t.clients && u in s.clients && t.clients == s.clients[u := t.clients[u]]
    ensures ToAct(s, u) ==> t.server == if s.clients[u].role == Writer then Some(text) else None
  {
    hide Reaches, Inert, CanSettle;
    if ToAct(s, u) {
      var a := ActOne(s, u, text);
      t := SettleOne(a, u);
      ReachesAll(s, a, t);
    } else {
      t := SettleOne(s, u);
    }
  }

  lemma {:induction false} FinishOthers(s: State, keep: set<Uuid>) returns (t: State)
    requires Inert(s.slot) && CanSettle(s)
    requires s.slot.Some? && s.slot.value.Lock? && s.slot.value.id in InFlight(s) ==> s.slot.value.id in keep
    ensures Reaches(s, t) && t.slot == s.slot && CanSettle(t) && InFlight(t) == InFlight(s) * keep
    ensures t.clients.Keys == s.clients.Keys
    ensures forall v :: v in s.clients && (v in keep || v !in InFlight(s)) ==> t.clients[v] == s.clients[v]
    decreases |InFlight(s) - keep|
  {
    hide Reaches, Inert, CanSettle, InFlight;
    if InFlight(s) <= keep {
      t := s;
      ReachesItself(s);
    } else {
      var u :| u in InFlight(s) && u !in keep;
      var a := FinishOne(s, u, "");
      assert InFlight(a) - keep == (InFlight(s) - keep) - {u};
      t := FinishOthers(a, keep);
      assert InFlight(a) * keep == InFlight(s) * keep;
      ReachesAll(s, a, t);
    }
  }

  // ----- A read that locks too early -----

  /** A read holds the key of an existing item that somebody is still to change. */
  lemma ReadTooEarly(s: State, r: Uuid, w: Uuid)
    requires s.slot == Some(LockOf(Held(ReadLock, r))) && s.server.Some? && CanSettle(s)
    requires r in s.clients && s.clients[r].role == Reader && s.clients[r].granted && s.clients[r].phase == Locked
    requires ToAct(s, w)
    ensures CanGoStale(s)
  {
    var a := Apply(s, Act(r, ""));
    InFlightStep(s, Act(r, ""));
    var b := FinishOthers(a, {w});
    assert InFlight(b) == {w};
    var c := FinishOne(b, w, s.server.value + "x");
    assert |s.server.value + "x"| != |s.server.value|;
    var d := Apply(c, Save(r));
    InFlightStep(c, Save(r));
    assert d.slot == Some(Plain(s.server.value)) && d.server == c.server != s.server;
    assert InFlight(d) == {};
    ReachesItself(d);
    ReachesBy(c, Save(r), d);
    assert CanGoStale(c);
    Back(b, c);
    Back(a, b);
    BackBy(s, Act(r, ""));
  }

  /** A read may lock an empty key exactly when nobody is still to change the item it could read. */
  lemma MissIff(s: State, r: Uuid)
    requires GuardInv(s) && Enabled(s, Miss(r))
    ensures LeadsAstray(s, Miss(r)) <==> !MissSafe(s)
  {
    var t := Apply(s, Miss(r));
    if MissSafe(s) {
      GuardStep(s, Miss(r));
      KeptStaysConsistent(t);
    } else if s.server.Some? {
      var w :| ToAct(s, w);
      ReadTooEarly(t, r, w);
    } else {
      var v, w :| ToAct(s, v) && ToAct(s, w) && v != w;
      assert s.clients[v].role == Writer;
      ReadTooEarly(Apply(t, Act(v, "a")), r, w);
      BackBy(t, Act(v, "a"));
    }
  }

  // ----- A mutation without its lock -----

  /** Somebody who can no longer repair the key is still to act on the server while the key is free
      to lock: another writer overtakes. */
  lemma Overtaken(s: State, x: Uuid, w: Uuid)
    requires s.slot.None? || s.slot.value.Tombstone?
    requires InFlight(s) == {x} && ToAct(s, x) && w !in s.clients
    requires s.clients[x].role == Deleter || !s.clients[x].granted
    ensures CanGoStale(s)
  {
    var s1 := Apply(s, Begin(w, Writer));
    var s2 := Apply(s1, Act(w, "b"));
    var s3 := Apply(s2, Act(x, "a"));
    var s4 := Apply(s3, Save(w));
    var last := if s.clients[x].role == Writer then Save(x) else Release(x);
    var s5 := Apply(s4, last);
    assert s5.slot == Some(Plain("b")) && s5.server != Some("b");
    InFlightStep(s, Begin(w, Writer));
    InFlightStep(s1, Act(w, "b"));
    InFlightStep(s2, Act(x, "a"));
    InFlightStep(s3, Save(w));
    InFlightStep(s4, last);
    assert InFlight(s5) == {};
    ReachesItself(s5);
    assert CanGoStale(s5);
    BackBy(s4, last);
    BackBy(s3, Save(w));
    BackBy(s2, Act(x, "a"));
    BackBy(s1, Act(w, "b"));
    BackBy(s, Begin(w, Writer));
  }

  /** The delete that holds the key finishes under everybody else. */
  lemma DeleteLetsGo(s: State, d: Uuid, x: Uuid, w: Uuid)
    requires s.slot == Some(LockOf(Held(DeleteLock, d))) && CanSettle(s) && d != x
    requires d in InFlight(s) && s.clients[d].role == Deleter && s.clients[d].granted
    requires ToAct(s, x) && !s.clients[x].granted && w !in s.clients
    ensures CanGoStale(s)
  {
    var a := FinishOthers(s, {d, x});
    assert InFlight(a) == {d, x};
    var b := if a.clients[d].phase == Locked then Apply(a, Act(d, "")) else a;
    var c := Apply(b, Release(d));
    if a.clients[d].phase == Locked { InFlightStep(a, Act(d, "")); }
    InFlightStep(b, Release(d));
    assert InFlight(c) == {x};
    Overtaken(c, x, w);
    BackBy(b, Release(d));
    if a.clients[d].phase == Locked { BackBy(a, Act(d, "")); }
    Back(s, a);
  }

  /** A mutation may begin exactly when it is granted its lock. */
  lemma BeginIff(s: State, id: Uuid, role: Role, w: Uuid)
    requires GuardInv(s) && Enabled(s, Begin(id, role)) && w !in s.clients && w != id
    ensures LeadsAstray(s, Begin(id, role)) <==> !Grants(s.slot, Held(KindFor(role), id))
  {
    var t := Apply(s, Begin(id, role));
    if Grants(s.slot, Held(KindFor(role), id)) {
      GuardStep(s, Begin(id, role));
      KeptStaysConsistent(t);
    } else {
      DeleteLetsGo(t, s.slot.value.id, id, w);
    }
  }

  /** The key may be deleted or tombstoned from outside exactly when no delete is between its lock
      and the server. */
  lemma ForceIff(s: State, id: Uuid, tombstone: bool, w: Uuid)
    requires GuardInv(s) && w !in s.clients
    ensures LeadsAstray(s, Force(id, tombstone)) <==> !ForceSafe(s)
  {
    var t := Apply(s, Force(id, tombstone));
    if ForceSafe(s) {
      GuardStep(s, Force(id, tombstone));
      KeptStaysConsistent(t);
    } else {
      var d :| ToAct(s, d) && s.clients[d].role != Writer;
      assert InFlight(t) == InFlight(s);
      var a := FinishOthers(t, {d});
      assert InFlight(a) == {d};
      Overtaken(a, d, w);
      Back(t, a);
    }
  }
}
