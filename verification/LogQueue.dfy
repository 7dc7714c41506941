/** The log queue under concurrency. Any number of writer threads check the queue size, link their
    record under a mutex and count it; one background thread takes the list, counts it out and
    hands it on. The size is checked outside the mutex, and counted out after it. */
module LogQueue {
  import opened Counting
  import opened LogEvents

  datatype Kind = Idle | Passed | Refusing | Linking

  datatype Drain =
    | Waiting
    | Took(batch: seq<LogEvent>)
    | Subtracted(batch: seq<LogEvent>)
    | Counted(batch: seq<LogEvent>)

  /** pending is the linked list, newest first. accepted, attempts and written record the past. */
  datatype State = State(
    queueSize: int, dropped: nat, sent: nat,
    pending: seq<LogEvent>, locked: bool,
    writers: seq<Call<Kind, LogEvent>>, drain: Drain,
    attempts: nat, accepted: seq<LogEvent>, written: seq<seq<LogEvent>>)

  datatype Step =
    | Check(j: nat, event: LogEvent)
    | Drop(j: nat)
    | Link(j: nat)
    | AddSize(j: nat)
    | Take
    | SubtractSize
    | AddSent
    | WriteMessages

  function Reverse<T>(s: seq<T>): (r: seq<T>)
    ensures |r| == |s|
  {
    if s == [] then [] else Reverse(s[1..]) + [s[0]]
  }

  function Flatten<T>(s: seq<seq<T>>): seq<T> {
    if s == [] then [] else Flatten(s[..|s| - 1]) + s[|s| - 1]
  }

  function IsPassed(k: Kind): bool { k.Passed? }
  function IsRefusing(k: Kind): bool { k.Refusing? }
  function IsLinking(k: Kind): bool { k.Linking? }

  predicate Enabled(s: State, e: Step) {
    match e
    case Check(j, _) => j < |s.writers| && s.writers[j].kind.Idle?
    case Drop(j) => j < |s.writers| && s.writers[j].kind.Refusing?
    case Link(j) => j < |s.writers| && s.writers[j].kind.Passed? && !s.locked
    case AddSize(j) => j < |s.writers| && s.writers[j].kind.Linking?
    case Take => s.drain.Waiting? && !s.locked
    case SubtractSize => s.drain.Took?
    case AddSent => s.drain.Subtracted?
    case WriteMessages => s.drain.Counted?
  }

  function Move(s: State, j: nat, kind: Kind, event: LogEvent): seq<Call<Kind, LogEvent>>
    requires j < |s.writers|
  {
    s.writers[j := Call(kind, event)]
  }

  function Apply(s: State, e: Step): State
    requires Enabled(s, e)
  {
    match e
    case Check(j, event) =>
      s.(attempts := s.attempts + 1,
         writers := Move(s, j, if Refuses(s.queueSize, event) then Refusing else Passed, event))
    case Drop(j) => s.(dropped := s.dropped + 1, writers := Move(s, j, Idle, s.writers[j].data))
    case Link(j) =>
      var event := s.writers[j].data;
      s.(pending := [event] + s.pending, accepted := s.accepted + [event], locked := true,
         writers := Move(s, j, Linking, event))
    case AddSize(j) => s.(queueSize := s.queueSize + 1, locked := false, writers := Move(s, j, Idle, s.writers[j].data))
    case Take => s.(pending := [], drain := Took(Reverse(s.pending)))
    case SubtractSize => s.(queueSize := s.queueSize - |s.drain.batch|, drain := Subtracted(s.drain.batch))
    case AddSent => s.(sent := s.sent + |s.drain.batch|, drain := Counted(s.drain.batch))
    case WriteMessages => s.(written := s.written + [s.drain.batch], drain := Waiting)
  }

  ghost predicate Reaches(s: State, run: seq<Step>, t: State)
    decreases run
  {
    if run == [] then s == t else Enabled(s, run[0]) && Reaches(Apply(s, run[0]), run[1..], t)
  }

  predicate Initial(s: State) {
    && s == State(0, 0, 0, [], false, s.writers, Waiting, 0, [], [])
    && forall j :: 0 <= j < |s.writers| ==> s.writers[j].kind.Idle?
  }

  function InFlight(d: Drain): seq<LogEvent> { if d.Waiting? then [] else d.batch }

  function Passing(s: State): nat { Count(s.writers, IsPassed) }
  function Refused(s: State): nat { Count(s.writers, IsRefusing) }
  function Holding(s: State): nat { Count(s.writers, IsLinking) }

  ghost predicate Inv(s: State) {
    && Flatten(s.written) + InFlight(s.drain) + Reverse(s.pending) == s.accepted
    && s.attempts == |s.accepted| + s.dropped + Passing(s) + Refused(s)
    && Holding(s) == (if s.locked then 1 else 0) && (s.locked ==> s.pending != [])
    && s.queueSize == |s.pending| + (if s.drain.Took? then |s.drain.batch| else 0) - Holding(s)
    && s.sent == |Flatten(s.written)| + (if s.drain.Counted? then |s.drain.batch| else 0)
  }

  lemma MoveCounts(s: State, j: nat, kind: Kind, event: LogEvent)
    requires j < |s.writers|
    ensures var w := Move(s, j, kind, event);
      && Count(w, IsPassed) == Passing(s) - One(IsPassed, s.writers[j].kind) + One(IsPassed, kind)
      && Count(w, IsRefusing) == Refused(s) - One(IsRefusing, s.writers[j].kind) + One(IsRefusing, kind)
      && Count(w, IsLinking) == Holding(s) - One(IsLinking, s.writers[j].kind) + One(IsLinking, kind)
  {
    CountUpdate(s.writers, j, Call(kind, event), IsPassed);
    CountUpdate(s.writers, j, Call(kind, event), IsRefusing);
    CountUpdate(s.writers, j, Call(kind, event), IsLinking);
  }

  lemma WriterStepKeeps(s: State, e: Step)
    requires Inv(s) && Enabled(s, e) && (e.Check? || e.Drop? || e.Link? || e.AddSize?)
    ensures Inv(Apply(s, e))
  {
    var t := Apply(s, e);
    MoveCounts(s, e.j, t.writers[e.j].kind, t.writers[e.j].data);
    if e.Link? {
      var event := s.writers[e.j].data;
      assert ([event] + s.pending)[1..] == s.pending;
      assert Flatten(s.written) + InFlight(s.drain) + (Reverse(s.pending) + [event]) == s.accepted + [event];
    }
  }

  lemma DrainStepKeeps(s: State, e: Step)
    requires Inv(s) && Enabled(s, e) && (e.Take? || e.SubtractSize? || e.AddSent? || e.WriteMessages?)
    ensures Inv(Apply(s, e))
  {
    var t := Apply(s, e);
    if e.Take? {
      assert Flatten(s.written) + [] + Reverse(s.pending) == Flatten(s.written) + Reverse(s.pending) + [];
    } else if e.WriteMessages? {
      assert t.written[..|t.written| - 1] == s.written;
      assert Flatten(t.written) + [] == Flatten(s.written) + s.drain.batch;
    }
  }

  lemma StepKeeps(s: State, e: Step)
    requires Inv(s) && Enabled(s, e)
    ensures Inv(Apply(s, e))
  {
    hide Inv, Apply, Enabled;
    if e.Check? || e.Drop? || e.Link? || e.AddSize? {
      WriterStepKeeps(s, e);
    } else {
      DrainStepKeeps(s, e);
    }
  }

  lemma {:induction false} RunKeeps(s: State, run: seq<Step>, t: State)
    requires Inv(s) && Reaches(s, run, t)
    ensures Inv(t)
    decreases run
  {
    hide Inv, Apply;
    if run != [] {
      StepKeeps(s, run[0]);
      RunKeeps(Apply(s, run[0]), run[1..], t);
    }
  }

  lemma InitHolds(s: State)
    requires Initial(s)
    ensures Inv(s) && Passing(s) == 0
  {
    CountNone(s.writers, IsPassed);
    CountNone(s.writers, IsRefusing);
    CountNone(s.writers, IsLinking);
  }

  // ----- Conservation -----

  /** No interleaving loses, repeats or reorders a record: what was handed on, then what is being
      handed on, then the list in insertion order, is what was accepted. */
  lemma NothingLost(init: State, run: seq<Step>, t: State)
    requires Initial(init) && Reaches(init, run, t)
    ensures Flatten(t.written) + InFlight(t.drain) + Reverse(t.pending) == t.accepted
    ensures t.queueSize >= 0
  {
    InitHolds(init);
    RunKeeps(init, run, t);
  }

  /** Once the writers are idle every attempt was accepted or dropped, and once the background
      thread is idle too the counters are exact. */
  lemma IdleExact(init: State, run: seq<Step>, t: State)
    requires Initial(init) && Reaches(init, run, t)
    requires forall j :: 0 <= j < |t.writers| ==> t.writers[j].kind.Idle?
    ensures t.attempts == |t.accepted| + t.dropped
    ensures t.drain.Waiting? ==> t.queueSize == |t.pending| && t.sent == |Flatten(t.written)|
  {
    InitHolds(init);
    RunKeeps(init, run, t);
    CountNone(t.writers, IsPassed);
    CountNone(t.writers, IsRefusing);
    CountNone(t.writers, IsLinking);
  }

  // ----- The size bound -----

  predicate NoNoneLevel(run: seq<Step>) {
    forall k :: 0 <= k < |run| && run[k].Check? ==> run[k].event.level > LEVEL_NONE
  }

  /** Writers past the check count as if their record were in the queue. */
  ghost predicate Bounded(s: State) {
    s.writers != [] ==> s.queueSize + Passing(s) + Holding(s) <= MAX_QUEUE_SIZE + |s.writers| - 1
  }

  lemma {:induction false} CountsFit(writers: seq<Call<Kind, LogEvent>>)
    ensures Count(writers, IsPassed) + Count(writers, IsLinking) <= |writers|
  {
    if writers != [] {
      CountsFit(writers[..|writers| - 1]);
    }
  }

  lemma StepBounded(s: State, e: Step)
    requires Bounded(s) && Enabled(s, e) && (e.Check? ==> e.event.level > LEVEL_NONE)
    ensures Bounded(Apply(s, e)) && |Apply(s, e).writers| == |s.writers|
  {
    var t := Apply(s, e);
    if e.Check? || e.Drop? || e.Link? || e.AddSize? {
      MoveCounts(s, e.j, t.writers[e.j].kind, t.writers[e.j].data);
    }
    if e.Check? && t.writers[e.j].kind.Passed? {
      FullRefuses(s.queueSize, e.event);
      CountsFit(t.writers);
    }
  }

  lemma {:induction false} RunBounded(s: State, run: seq<Step>, t: State)
    requires Bounded(s) && Reaches(s, run, t) && NoNoneLevel(run)
    ensures Bounded(t) && |t.writers| == |s.writers|
    decreases run
  {
    hide Bounded, Apply;
    if run != [] {
      assert forall k :: 0 <= k < |run[1..]| ==> run[1..][k] == run[k + 1];
      StepBounded(s, run[0]);
      RunBounded(Apply(s, run[0]), run[1..], t);
    }
  }

  /** With n writers and no event at the lowest level the queue never exceeds its limit by n. */
  lemma SizeBound(init: State, run: seq<Step>, t: State)
    requires Initial(init) && Reaches(init, run, t) && NoNoneLevel(run) && init.writers != []
    ensures t.queueSize <= MAX_QUEUE_SIZE + |init.writers| - 1
  {
    InitHolds(init);
    RunBounded(init, run, t);
  }

  // ----- Nothing made up -----

  /** How often the writers of a run came with an event. */
  function Offers(run: seq<Step>, event: LogEvent): nat {
    if run == [] then 0 else Offers(run[1..], event) + if run[0].Check? && run[0].event == event then 1 else 0
  }

  function Holds(c: Call<Kind, LogEvent>, event: LogEvent): nat { if c.kind.Passed? && c.data == event then 1 else 0 }

  /** How many writers have passed the check with an event that is not linked yet. */
  function InHand(writers: seq<Call<Kind, LogEvent>>, event: LogEvent): nat {
    if writers == [] then 0 else InHand(writers[..|writers| - 1], event) + Holds(writers[|writers| - 1], event)
  }

  lemma {:induction false} InHandUpdate(writers: seq<Call<Kind, LogEvent>>, j: nat, c: Call<Kind, LogEvent>, event: LogEvent)
    requires j < |writers|
    ensures InHand(writers[j := c], event) == InHand(writers, event) - Holds(writers[j], event) + Holds(c, event)
  {
    hide Holds;
    var n := |writers| - 1;
    if j == n {
      assert writers[j := c][..n] == writers[..n];
    } else {
      assert writers[j := c][..n] == writers[..n][j := c];
      InHandUpdate(writers[..n], j, c, event);
    }
  }

  function Claims(s: State, event: LogEvent): nat { multiset(s.accepted)[event] + InHand(s.writers, event) }

  lemma StepClaims(s: State, e: Step, event: LogEvent)
    requires Enabled(s, e)
    ensures Claims(Apply(s, e), event) <= Claims(s, event) + Offers([e], event)
  {
    hide InHand, Refuses;
    var t := Apply(s, e);
    assert Offers([e], event) == if e.Check? && e.event == event then 1 else 0;
    if e.Check? || e.Drop? || e.Link? || e.AddSize? {
      InHandUpdate(s.writers, e.j, t.writers[e.j], event);
    }
    if e.Link? {
      assert multiset(t.accepted) == multiset(s.accepted) + multiset{s.writers[e.j].data};
    }
  }

  lemma {:induction false} RunClaims(s: State, run: seq<Step>, t: State, event: LogEvent)
    requires Reaches(s, run, t)
    ensures Claims(t, event) <= Claims(s, event) + Offers(run, event)
    decreases run
  {
    hide Claims, Apply, Enabled;
    if run != [] {
      StepClaims(s, run[0], event);
      RunClaims(Apply(s, run[0]), run[1..], t, event);
    }
  }

  lemma {:induction false} NoneInHand(writers: seq<Call<Kind, LogEvent>>, event: LogEvent)
    requires forall j :: 0 <= j < |writers| ==> !writers[j].kind.Passed?
    ensures InHand(writers, event) == 0
  {
    if writers != [] {
      NoneInHand(writers[..|writers| - 1], event);
    }
  }

  /** Nothing is accepted that no writer came with, nor more often than writers came with it. */
  lemma AcceptedWereOffered(init: State, run: seq<Step>, t: State, event: LogEvent)
    requires Initial(init) && Reaches(init, run, t)
    ensures multiset(t.accepted)[event] <= Offers(run, event)
  {
    NoneInHand(init.writers, event);
    RunClaims(init, run, t, event);
    assert multiset(init.accepted)[event] == 0;
  }

  // ----- Without that hypothesis -----

  const SILENT := LogEvent(LEVEL_NONE, "", "", "m", 0, "")

  function Flood(n: nat): seq<Step> {
    if n == 0 then [] else [Check(0, SILENT), Link(0), AddSize(0)] + Flood(n - 1)
  }

  /** Events at the lowest level are never refused: one writer alone outgrows any bound. */
  lemma {:induction false} FloodGrows(s: State, n: nat) returns (t: State)
    requires |s.writers| == 1 && s.writers[0].kind.Idle? && !s.locked
    ensures Reaches(s, Flood(n), t) && t.queueSize == s.queueSize + n
    decreases n
  {
    if n == 0 {
      t := s;
    } else {
      var run := Flood(n);
      var a := Apply(s, run[0]);
      var b := Apply(a, run[1]);
      var c := Apply(b, run[2]);
      t := FloodGrows(c, n - 1);
      assert run[1..][1..][1..] == Flood(n - 1);
      assert run[1..][1..][0] == run[2] && run[1..][0] == run[1];
      assert Reaches(b, run[1..][1..], t);
      assert Reaches(a, run[1..], t);
    }
  }
}
