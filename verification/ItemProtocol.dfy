/** Any number of clients reading, writing and deleting one cached item. Each step is one
    provider call on the item's primary key or one action on the server; a run is any finite
    sequence of steps of any clients. */
module ItemProtocol {
  import opened Options
  import opened Sentinels
  import opened CacheOps
  import opened SlotOps

  datatype Role = Reader | Writer | Deleter

  /** Locked: the lock call returned. Acted: the server answered. Failed: the server call failed.
      Saved: SetValue returned. Gone: the deferred release ran. */
  datatype Phase = Locked | Acted | Failed | Saved | Gone

  /** granted: the lock call did not return NoLockSentinel. The times are ghost history. */
  datatype Client = Client(role: Role, granted: bool, phase: Phase, val: Option<string>,
                           lockAt: nat, actAt: Option<nat>, saveAt: Option<nat>, installed: bool)

  datatype State = State(slot: Slot, server: Option<string>, clients: map<Uuid, Client>, now: nat)

  datatype Step =
    | Begin(id: Uuid, role: Role)
    | Miss(id: Uuid)
    | Act(id: Uuid, text: string)
    | Fail(id: Uuid)
    | Save(id: Uuid)
    | Release(id: Uuid)
    | Drop
    | Force(id: Uuid, tombstone: bool)

  function KindFor(role: Role): Kind {
    match role
    case Reader => ReadLock
    case Writer => WriteLock
    case Deleter => DeleteLock
  }

  function SentinelOf(id: Uuid, c: Client): Sentinel {
    if c.granted then Held(KindFor(c.role), id) else NoLock
  }

  predicate Settled(phase: Phase) { phase == Saved || phase == Gone }

  /** A failed read returns without releasing its lock; a failed mutation still will. */
  predicate Idle(c: Client) { Settled(c.phase) || (c.role == Reader && c.phase == Failed) }

  predicate IsMutation(c: Client) { c.role != Reader }

  /** Mutations that may still act on the server or still have to settle the key. */
  predicate Pending(c: Client) {
    || (c.role == Writer && (c.phase == Locked || c.phase == Acted))
    || (c.role == Deleter && c.phase != Gone)
  }

  function InFlight(s: State): set<Uuid> {
    set id | id in s.clients && Pending(s.clients[id])
  }

  // ----- The steps -----

  predicate Enabled(s: State, step: Step) {
    match step
    case Begin(id, role) => id !in s.clients && role != Reader
    case Miss(id) => id !in s.clients && s.slot.None?
    case Act(id, _) => id in s.clients && s.clients[id].phase == Locked
    case Fail(id) => id in s.clients && s.clients[id].phase == Locked
    case Save(id) =>
      && id in s.clients && s.clients[id].phase == Acted
      && s.clients[id].role != Deleter && s.clients[id].val.Some?
    case Release(id) =>
      && id in s.clients
      && (match s.clients[id].role
          case Writer => (s.clients[id].phase == Saved || s.clients[id].phase == Failed)
          case Deleter => (s.clients[id].phase == Acted || s.clients[id].phase == Failed)
          case Reader => s.clients[id].phase != Locked && s.clients[id].phase != Gone)
    // A plain value may be evicted at any time, a tombstone or the lock of a client that will
    // never use it again may expire.
    case Drop =>
      && s.slot.Some?
      && (s.slot.value.Lock? ==> s.slot.value.id in s.clients && Idle(s.clients[s.slot.value.id]))
    case Force(_, _) => true
  }

  function Update(s: State, id: Uuid, c: Client): map<Uuid, Client> { s.clients[id := c] }

  function Apply(s: State, step: Step): State
    requires Enabled(s, step)
  {
    var t := s.(now := s.now + 1);
    match step
    case Begin(id, role) =>
      var mine := Held(KindFor(role), id);
      t.(slot := LockSlot(s.slot, mine),
         clients := Update(s, id, Client(role, Grants(s.slot, mine), Locked, None, s.now, None, None, false)))
    case Miss(id) =>
      t.(slot := Some(LockOf(Held(ReadLock, id))),
         clients := Update(s, id, Client(Reader, true, Locked, None, s.now, None, None, false)))
    case Act(id, text) =>
      var c := s.clients[id].(phase := Acted, actAt := Some(s.now));
      (match c.role
       case Reader => t.(clients := Update(s, id, c.(val := s.server)))
       case Writer => t.(server := Some(text), clients := Update(s, id, c.(val := Some(text))))
       case Deleter => t.(server := None, clients := Update(s, id, c)))
    case Fail(id) => t.(clients := Update(s, id, s.clients[id].(phase := Failed)))
    case Save(id) =>
      // Without a lock SaveItemToCache returns at once.
      var c := s.clients[id];
      var mine := SentinelOf(id, c);
      if mine.NoLock? then t.(clients := Update(s, id, c.(phase := Saved)))
      else
        t.(slot := CommitSlot(s.slot, c.val.value, mine),
           clients := Update(s, id, c.(phase := Saved, saveAt := Some(s.now),
                                       installed := Decide(s.slot, c.val.value, mine) == SetIt)))
    case Release(id) =>
      t.(slot := ReleaseSlot(s.slot, SentinelOf(id, s.clients[id])),
         clients := Update(s, id, s.clients[id].(phase := Gone)))
    case Drop => t.(slot := None)
    case Force(id, tombstone) => t.(slot := if tombstone then Some(Tombstone(id)) else None)
  }

  /** The workloads the theorems are about. */
  datatype Policy = AnyMix | Guarded | HitsOnly | TwoWriters

  predicate AtMostOne(F: set<Uuid>) { forall a, b :: a in F && b in F ==> a == b }

  /** In flight, and still to act on the server. */
  predicate ToAct(s: State, u: Uuid) {
    u in s.clients && IsMutation(s.clients[u]) && s.clients[u].phase == Locked
  }

  /** A read may lock the empty key: nobody is still to change an item it could read. */
  ghost predicate MissSafe(s: State) {
    if s.server.Some? then forall u :: !ToAct(s, u) else forall u, v :: ToAct(s, u) && ToAct(s, v) ==> u == v
  }

  /** Nobody is between locking and deleting. */
  ghost predicate ForceSafe(s: State) {
    forall u :: ToAct(s, u) ==> s.clients[u].role == Writer
  }

  ghost predicate Allowed(policy: Policy, s: State, step: Step) {
    match policy
    case AnyMix => true
    // Each of the three guards can be read off the state before the step; all else is free.
    case Guarded =>
      (match step
       case Begin(id, role) => Grants(s.slot, Held(KindFor(role), id))
       case Miss(_) => MissSafe(s)
       case Force(_, _) => ForceSafe(s)
       case _ => true)
    // Readers never lock on a miss, nobody deletes the key from outside, and no mutation
    // starts while a delete holds the key (it would run without a lock).
    case HitsOnly =>
      && !step.Miss? && !step.Force?
      && (step.Begin? ==> Grants(s.slot, Held(KindFor(step.role), step.id)))
    // Readers may lock on a miss. At most two writers overlap; deletes, failing mutations,
    // evictions and outside deletions happen while nothing else is in flight.
    case TwoWriters =>
      match step
      case Begin(_, Writer) => AtMostOne(InFlight(s)) && forall u :: u in InFlight(s) ==> s.clients[u].role == Writer
      case Begin(_, Deleter) => InFlight(s) == {}
      case Fail(id) => InFlight(s) <= {id}
      case Drop => InFlight(s) == {}
      case Force(_, tombstone) => tombstone && InFlight(s) == {}
      case _ => true
  }

  ghost predicate Legal(policy: Policy, s: State, run: seq<Step>)
    decreases run
  {
    run == [] || (Enabled(s, run[0]) && Allowed(policy, s, run[0]) && Legal(policy, Apply(s, run[0]), run[1..]))
  }

  ghost function After(policy: Policy, s: State, run: seq<Step>): State
    requires Legal(policy, s, run)
    decreases run
  {
    if run == [] then s else After(policy, Apply(s, run[0]), run[1..])
  }

  predicate Init(s: State) {
    s.clients == map[] && (s.slot.None? || (s.server.Some? && s.slot == Some(Plain(s.server.value))))
  }

  /** Nobody is half way through a change, so a cached value has to be the server's. */
  predicate Consistent(s: State) {
    InFlight(s) == {} && s.slot.Some? && s.slot.value.Plain? ==> s.server == Some(s.slot.value.text)
  }

  predicate Stale(s: State) { !Consistent(s) }

  // ----- Locks in the key belong to clients -----

  predicate ExactLock(s: State, id: Uuid) {
    s.slot.Some? && s.slot.value.Lock? && s.slot.value.id == id && s.slot.value.conflicts == []
  }

  predicate LocksOwned(s: State) {
    && (s.slot.Some? ==> !s.slot.value.Names?)
    && (s.slot.Some? && s.slot.value.Lock? ==>
          var id := s.slot.value.id;
          && id in s.clients && s.clients[id].granted && s.slot.value.kind == KindFor(s.clients[id].role)
          && (s.slot.value.kind != WriteLock ==> s.slot.value.conflicts == [])
          && (s.slot.value.conflicts == [] ==> !Settled(s.clients[id].phase)))
  }

  lemma LocksOwnedStep(s: State, step: Step)
    requires LocksOwned(s) && Enabled(s, step)
    ensures LocksOwned(Apply(s, step))
  {
  }

  // ----- Fill safety, for every run -----

  /** While a key still holds exactly my lock, nobody interfered since I took it. */
  predicate Undisturbed(s: State, id: Uuid, c: Client) {
    && (forall u :: u in s.clients && u != id && IsMutation(s.clients[u]) ==>
          (c.role == Reader || s.clients[u].granted ==> s.clients[u].lockAt < c.lockAt))
    && (c.role == Writer ==> forall u :: u in s.clients && u != id && s.clients[u].role == Writer && s.clients[u].saveAt.Some? ==>
          s.clients[u].saveAt.value < c.lockAt)
  }

  /** Between taking its lock and installing its value no mutation even tried to lock the key. */
  predicate ReadFillSafe(s: State, r: Uuid)
    requires r in s.clients
  {
    var c := s.clients[r];
    c.role == Reader && c.installed ==>
      && c.saveAt.Some?
      && forall u :: u in s.clients && IsMutation(s.clients[u]) ==>
           s.clients[u].lockAt < c.lockAt || c.saveAt.value < s.clients[u].lockAt
  }

  /** Between taking its lock and installing its value no other mutation took the lock and no
      other write saved to the key. */
  predicate WriteFillSafe(s: State, w: Uuid)
    requires w in s.clients
  {
    var c := s.clients[w];
    c.role == Writer && c.installed ==>
      && c.saveAt.Some?
      && forall u :: u in s.clients && u != w && IsMutation(s.clients[u]) ==>
           && (s.clients[u].granted ==> s.clients[u].lockAt < c.lockAt || c.saveAt.value < s.clients[u].lockAt)
           && (s.clients[u].role == Writer && s.clients[u].saveAt.Some? ==>
                 s.clients[u].saveAt.value < c.lockAt || c.saveAt.value < s.clients[u].saveAt.value)
  }

  predicate Timely(s: State) {
    forall u :: u in s.clients ==>
      && s.clients[u].lockAt < s.now
      && (s.clients[u].actAt.Some? ==> s.clients[u].actAt.value < s.now)
      && (s.clients[u].saveAt.Some? ==> s.clients[u].saveAt.value < s.now && Settled(s.clients[u].phase))
      && (s.clients[u].installed ==> s.clients[u].saveAt.Some?)
  }

  predicate HistoryInv(s: State) {
    && LocksOwned(s) && Timely(s)
    && (forall id :: id in s.clients && ExactLock(s, id) ==> Undisturbed(s, id, s.clients[id]))
    && (forall u :: u in s.clients ==> ReadFillSafe(s, u) && WriteFillSafe(s, u))
  }

  /** What a step leaves of a client: its past never changes. */
  predicate Continues(s: State, step: Step, u: Uuid, a: Client, b: Client) {
    && a.role == b.role && a.granted == b.granted && a.lockAt == b.lockAt
    && (a.saveAt == b.saveAt || (step == Save(u) && a.granted && b.saveAt == Some(s.now)))
    && (a.installed == b.installed || step == Save(u))
  }

  lemma ClientsContinue(s: State, step: Step)
    requires Enabled(s, step)
    ensures forall u :: u in s.clients ==> u in Apply(s, step).clients && Continues(s, step, u, s.clients[u], Apply(s, step).clients[u])
    ensures forall u :: u in Apply(s, step).clients && u !in s.clients ==>
      var b := Apply(s, step).clients[u];
      && (step.Begin? || step.Miss?) && step.id == u
      && b.lockAt == s.now && b.saveAt.None? && !b.installed
      && b.role == (if step.Begin? then step.role else Reader)
      && b.granted == (step.Begin? ==> Grants(s.slot, Held(KindFor(step.role), u)))
  {
  }

  lemma TimelyStep(s: State, step: Step)
    requires Timely(s) && Enabled(s, step)
    ensures Timely(Apply(s, step))
  {
  }

  /** A lock that is still exact after a step was just taken, or was exact before and the step
      neither granted the lock to another mutation nor saved another write. */
  lemma StillExact(s: State, step: Step, id: Uuid)
    requires LocksOwned(s) && Enabled(s, step)
    requires ExactLock(Apply(s, step), id)
    ensures id in s.clients ==> ExactLock(s, id)
    ensures id in s.clients && step.Begin? ==> s.clients[id].role == Deleter && !Grants(s.slot, Held(KindFor(step.role), step.id))
    ensures id in s.clients && step.Save? && step.id in s.clients && s.clients[step.id].granted && s.clients[step.id].role == Writer ==>
      s.clients[id].role != Writer
    ensures id !in s.clients ==> (step.Begin? || step.Miss?) && step.id == id
  {
  }

  lemma ExactStep(s: State, step: Step, id: Uuid)
    requires HistoryInv(s) && Enabled(s, step)
    requires id in Apply(s, step).clients && ExactLock(Apply(s, step), id)
    ensures Undisturbed(Apply(s, step), id, Apply(s, step).clients[id])
  {
    var t := Apply(s, step);
    StillExact(s, step, id);
    ClientsContinue(s, step);
    if id in s.clients {
      assert Undisturbed(s, id, s.clients[id]);
      KeptUndisturbed(s, step, t, id);
    } else {
      FreshUndisturbed(s, step, t, id);
    }
  }

  lemma KeptUndisturbed(s: State, step: Step, t: State, id: Uuid)
    requires id in s.clients && id in t.clients && Undisturbed(s, id, s.clients[id])
    requires forall u :: u in s.clients ==> u in t.clients && Continues(s, step, u, s.clients[u], t.clients[u])
    requires forall u :: u in t.clients && u !in s.clients && IsMutation(t.clients[u]) ==>
      s.clients[id].role == Deleter && !t.clients[u].granted && t.clients[u].saveAt.None?
    requires step.Save? && step.id in s.clients && s.clients[step.id].granted && s.clients[step.id].role == Writer ==>
      s.clients[id].role != Writer
    ensures Undisturbed(t, id, t.clients[id])
  {
  }

  lemma FreshUndisturbed(s: State, step: Step, t: State, id: Uuid)
    requires Timely(s) && id !in s.clients && id in t.clients && t.clients[id].lockAt == s.now
    requires forall u :: u in s.clients ==> u in t.clients && Continues(s, step, u, s.clients[u], t.clients[u])
    requires forall u :: u in t.clients && u !in s.clients ==> u == id
    requires !step.Save?
    ensures Undisturbed(t, id, t.clients[id])
  {
  }

  /** What a step may change about the clients, without the step. */
  predicate Extends(s: State, t: State) {
    && t.now == s.now + 1
    && (forall u :: u in s.clients ==>
         && u in t.clients
         && s.clients[u].role == t.clients[u].role && s.clients[u].granted == t.clients[u].granted
         && s.clients[u].lockAt == t.clients[u].lockAt
         && (s.clients[u].saveAt == t.clients[u].saveAt || t.clients[u].saveAt == Some(s.now)))
    && (forall u :: u in t.clients && u !in s.clients ==>
         t.clients[u].lockAt == s.now && t.clients[u].saveAt.None? && !t.clients[u].installed)
  }

  lemma KeptFill(s: State, t: State, r: Uuid)
    requires Timely(s) && Extends(s, t) && r in t.clients
    requires r in s.clients ==> ReadFillSafe(s, r) && WriteFillSafe(s, r)
    requires r in s.clients ==> s.clients[r].installed == t.clients[r].installed
    requires r in s.clients && s.clients[r].installed ==> s.clients[r].saveAt == t.clients[r].saveAt
    ensures ReadFillSafe(t, r) && WriteFillSafe(t, r)
  {
  }

  lemma NewFill(s: State, t: State, r: Uuid)
    requires Timely(s) && Extends(s, t) && r in s.clients && t.clients.Keys == s.clients.Keys
    requires Undisturbed(s, r, s.clients[r]) && t.clients[r].saveAt == Some(s.now)
    requires forall u :: u in s.clients && u != r ==> t.clients[u].saveAt == s.clients[u].saveAt
    ensures ReadFillSafe(t, r) && WriteFillSafe(t, r)
  {
  }

  /** A value is installed only from an exact lock, and the interval it closes stays closed. */
  lemma FillStep(s: State, step: Step, r: Uuid)
    requires HistoryInv(s) && Enabled(s, step) && r in Apply(s, step).clients
    ensures ReadFillSafe(Apply(s, step), r) && WriteFillSafe(Apply(s, step), r)
  {
    var t := Apply(s, step);
    ClientsContinue(s, step);
    if step == Save(r) && t.clients[r].installed {
      InstallsFromExactLock(s, r);
      NewFill(s, t, r);
    } else {
      if step == Save(r) { NotYetInstalled(s, r); }
      KeptFill(s, t, r);
    }
  }

  lemma NotYetInstalled(s: State, r: Uuid)
    requires Timely(s) && Enabled(s, Save(r))
    ensures !s.clients[r].installed
  {
  }

  lemma InstallsFromExactLock(s: State, r: Uuid)
    requires LocksOwned(s) && Enabled(s, Save(r)) && Timely(s) && Apply(s, Save(r)).clients[r].installed
    ensures ExactLock(s, r) && Apply(s, Save(r)).clients[r].saveAt == Some(s.now)
    ensures Apply(s, Save(r)).slot == Some(Plain(s.clients[r].val.value))
  {
    NotYetInstalled(s, r);
  }

  lemma HistoryStep(s: State, step: Step)
    requires HistoryInv(s) && Enabled(s, step)
    ensures HistoryInv(Apply(s, step))
  {
    LocksOwnedStep(s, step);
    TimelyStep(s, step);
    var t := Apply(s, step);
    forall id | id in t.clients && ExactLock(t, id) ensures Undisturbed(t, id, t.clients[id]) {
      ExactStep(s, step, id);
    }
    forall u | u in t.clients ensures ReadFillSafe(t, u) && WriteFillSafe(t, u) {
      FillStep(s, step, u);
    }
  }
}
