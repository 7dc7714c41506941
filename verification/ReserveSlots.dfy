/** Any number of concurrent reservations on the same window of rate limit buckets. Each call reads
    all buckets, and then increments and possibly decrements the final one; other calls run
    between any two of these steps. */
module ReserveSlots {
  import opened Counting

  datatype Kind = Start | Ready | Over | Granted | Denied | Peeked(below: bool)

  /** The data of a call: the slots it counted outside the final bucket until it is done, and the
      total it returns from then on. */
  datatype State = State(buckets: seq<int>, calls: seq<Call<Kind, int>>)

  datatype Step = Read(j: nat, takeSlot: bool) | Increment(j: nat) | Undo(j: nat)

  function IsGranted(k: Kind): bool { k.Granted? }
  function IsOver(k: Kind): bool { k.Over? }
  function IsDenied(k: Kind): bool { k.Denied? }

  predicate WellFormed(s: State) { s.buckets != [] }

  function Last(s: State): int
    requires WellFormed(s)
  {
    s.buckets[|s.buckets| - 1]
  }

  function Others(s: State): nat
    requires WellFormed(s)
  {
    Used(s.buckets[..|s.buckets| - 1])
  }

  predicate Enabled(s: State, e: Step) {
    && WellFormed(s) && e.j < |s.calls|
    && match e
       case Read(j, _) => s.calls[j].kind.Start?
       case Increment(j) => s.calls[j].kind.Ready?
       case Undo(j) => s.calls[j].kind.Over?
  }

  function Put(s: State, last: int, j: nat, c: Call<Kind, int>): State
    requires WellFormed(s) && j < |s.calls|
  {
    State(s.buckets[|s.buckets| - 1 := last], s.calls[j := c])
  }

  function Apply(limit: int, s: State, e: Step): (t: State)
    requires Enabled(s, e)
  {
    var last := Last(s);
    match e
    case Read(j, takeSlot) =>
      var total := Others(s) + last;
      Put(s, last, j,
          if !takeSlot then Call(Peeked(total < limit), total)
          else if total >= limit then Call(Denied, total)
          else Call(Ready, total - last))
    case Increment(j) =>
      var total := s.calls[j].data + last + 1;
      Put(s, last + 1, j, if total > limit then Call(Over, s.calls[j].data) else Call(Granted, total))
    case Undo(j) => Put(s, last - 1, j, Call(Denied, s.calls[j].data + last - 1))
  }

  ghost predicate Reaches(limit: int, s: State, run: seq<Step>, t: State)
    decreases run
  {
    if run == [] then s == t
    else Enabled(s, run[0]) && Reaches(limit, Apply(limit, s, run[0]), run[1..], t)
  }

  predicate Initial(s: State) {
    WellFormed(s) && forall j :: 0 <= j < |s.calls| ==> s.calls[j].kind.Start?
  }

  /** Slots in use before any of the calls. */
  function Before(s: State): int
    requires WellFormed(s)
  {
    Others(s) + Last(s)
  }

  function Grants(s: State): nat { Count(s.calls, IsGranted) }

  /** Relative to the initial state: only granted calls and calls about to undo are in the final
      bucket; and wherever some call has been turned away or is about to be, the limit was met by
      what was there before and by grants alone. */
  ghost predicate Inv(limit: int, init: State, s: State)
    requires WellFormed(init)
  {
    && WellFormed(s) && |s.buckets| == |init.buckets| && |s.calls| == |init.calls|
    && s.buckets[..|s.buckets| - 1] == init.buckets[..|init.buckets| - 1]
    && Last(s) == Last(init) + Grants(s) + Count(s.calls, IsOver)
    && (Grants(s) > 0 ==> Before(init) + Grants(s) <= limit)
    && (Count(s.calls, IsOver) + Count(s.calls, IsDenied) > 0 ==> Before(init) + Grants(s) >= limit)
    && (forall j :: 0 <= j < |s.calls| && s.calls[j].kind.Ready? ==> s.calls[j].data == Others(init))
    && (forall j :: 0 <= j < |s.calls| && s.calls[j].kind.Granted? ==> s.calls[j].data <= limit)
  }

  lemma CountsAfter(s: State, last: int, j: nat, c: Call<Kind, int>)
    requires WellFormed(s) && j < |s.calls|
    ensures var t := Put(s, last, j, c);
      && Grants(t) == Grants(s) - One(IsGranted, s.calls[j].kind) + One(IsGranted, c.kind)
      && Count(t.calls, IsOver) == Count(s.calls, IsOver) - One(IsOver, s.calls[j].kind) + One(IsOver, c.kind)
      && Count(t.calls, IsDenied) == Count(s.calls, IsDenied) - One(IsDenied, s.calls[j].kind) + One(IsDenied, c.kind)
  {
    CountUpdate(s.calls, j, c, IsGranted);
    CountUpdate(s.calls, j, c, IsOver);
    CountUpdate(s.calls, j, c, IsDenied);
  }

  lemma StepKeeps(limit: int, init: State, s: State, e: Step)
    requires WellFormed(init) && Inv(limit, init, s) && Enabled(s, e)
    ensures Inv(limit, init, Apply(limit, s, e))
  {
    var t := Apply(limit, s, e);
    CountsAfter(s, Last(t), e.j, t.calls[e.j]);
    assert t.buckets[..|t.buckets| - 1] == s.buckets[..|s.buckets| - 1];
    if e.Undo? {
      CountNone(s.calls, IsOver);
    }
  }

  lemma {:induction false} RunKeeps(limit: int, init: State, s: State, run: seq<Step>, t: State)
    requires WellFormed(init) && Inv(limit, init, s) && Reaches(limit, s, run, t)
    ensures Inv(limit, init, t)
    decreases run
  {
    if run != [] {
      StepKeeps(limit, init, s, run[0]);
      RunKeeps(limit, init, Apply(limit, s, run[0]), run[1..], t);
    }
  }

  lemma InitHolds(limit: int, init: State)
    requires Initial(init)
    ensures Inv(limit, init, init)
  {
    CountNone(init.calls, IsGranted);
    CountNone(init.calls, IsOver);
    CountNone(init.calls, IsDenied);
  }

  /** In every interleaving: once a slot has been granted, the slots there before and the grants
      never exceed the limit; and a call is only turned away when they have reached it. */
  lemma LimitHolds(limit: int, init: State, run: seq<Step>, t: State)
    requires Initial(init) && Reaches(limit, init, run, t)
    ensures Grants(t) > 0 ==> Before(init) + Grants(t) <= limit
    ensures (exists j :: 0 <= j < |t.calls| && t.calls[j].kind.Denied?) ==> Before(init) + Grants(t) >= limit
  {
    InitHolds(limit, init);
    RunKeeps(limit, init, init, run, t);
    CountNone(t.calls, IsDenied);
  }

  predicate Quiet(s: State) {
    forall j :: 0 <= j < |s.calls| ==>
      s.calls[j].kind.Granted? || s.calls[j].kind.Denied? || s.calls[j].kind.Peeked?
  }

  function Takes(k: Kind): bool { !k.Peeked? }

  /** When all calls are done the final bucket has grown by the grants, and exactly as many calls
      got a slot as asked for one and as the limit left room for. */
  lemma QuietExact(limit: int, init: State, run: seq<Step>, t: State)
    requires Initial(init) && Reaches(limit, init, run, t) && Quiet(t)
    ensures WellFormed(t) && t.buckets == init.buckets[|init.buckets| - 1 := Last(init) + Grants(t)]
    ensures Grants(t) == Min(Count(t.calls, Takes), if Before(init) < limit then limit - Before(init) else 0)
  {
    InitHolds(limit, init);
    RunKeeps(limit, init, init, run, t);
    CountNone(t.calls, IsOver);
    var n := |t.buckets| - 1;
    assert t.buckets == t.buckets[..n] + [Last(t)];
    assert init.buckets == init.buckets[..n] + [Last(init)];
    TakersSplit(t.calls);
  }

  lemma {:induction false} TakersSplit(calls: seq<Call<Kind, int>>)
    requires Quiet(State([0], calls))
    ensures Count(calls, Takes) == Count(calls, IsGranted) + Count(calls, IsDenied)
  {
    if calls != [] {
      var n := |calls| - 1;
      assert forall j :: 0 <= j < n ==> calls[..n][j] == calls[j];
      assert Quiet(State([0], calls[..n]));
      TakersSplit(calls[..n]);
    }
  }

  // ----- The totals returned -----

  /** A call that does not ask for a slot changes no bucket, and answers whether there is room: the
      sum of the buckets against the limit, where only the final one may count as negative. */
  lemma PeekReads(limit: int, s: State, j: nat)
    requires Enabled(s, Read(j, false))
    ensures var n := |s.buckets| - 1;
      var total := Sum(Positive(s.buckets[..n])) + s.buckets[n];
      && Apply(limit, s, Read(j, false)) == State(s.buckets, s.calls[j := Call(Peeked(total < limit), total)])
      && ((forall i :: 0 <= i <= n ==> s.buckets[i] >= 0) ==> total == Sum(s.buckets))
  {
    hide Used;
    var n := |s.buckets| - 1;
    UsedIsSum(s.buckets[..n]);
    assert s.buckets[n := s.buckets[n]] == s.buckets;
    if forall i :: 0 <= i <= n ==> s.buckets[i] >= 0 {
      assert Positive(s.buckets[..n]) == s.buckets[..n];
    }
  }

  /** The grants so far have returned as many different totals, none above what they fill; a peek
      answers truly for its total; and a call turned away returns a total that met the limit. */
  ghost predicate Totals(limit: int, init: State, s: State)
    requires WellFormed(init)
  {
    && (forall j :: 0 <= j < |s.calls| && s.calls[j].kind.Granted? ==>
          Before(init) < s.calls[j].data <= Before(init) + Grants(s))
    && (forall i, j :: 0 <= i < j < |s.calls| && s.calls[i].kind.Granted? && s.calls[j].kind.Granted? ==>
          s.calls[i].data != s.calls[j].data)
    && (forall j :: 0 <= j < |s.calls| && s.calls[j].kind.Peeked? ==>
          (s.calls[j].kind.below <==> s.calls[j].data < limit) && s.calls[j].data >= Before(init))
    && (forall j :: 0 <= j < |s.calls| && s.calls[j].kind.Over? ==> s.calls[j].data == Others(init))
    && (forall j :: 0 <= j < |s.calls| && s.calls[j].kind.Denied? ==> s.calls[j].data >= limit)
  }

  lemma TotalsKept(limit: int, init: State, s: State, e: Step)
    requires WellFormed(init) && Inv(limit, init, s) && Totals(limit, init, s) && Enabled(s, e)
    ensures Totals(limit, init, Apply(limit, s, e))
  {
    hide Count, Used;
    var t := Apply(limit, s, e);
    CountsAfter(s, Last(t), e.j, t.calls[e.j]);
    if e.Undo? {
      CountNone(s.calls, IsOver);
    }
  }

  lemma {:induction false} TotalsRun(limit: int, init: State, s: State, run: seq<Step>, t: State)
    requires WellFormed(init) && Inv(limit, init, s) && Totals(limit, init, s) && Reaches(limit, s, run, t)
    ensures Totals(limit, init, t)
    decreases run
  {
    hide Inv, Totals, Apply, Enabled;
    if run != [] {
      StepKeeps(limit, init, s, run[0]);
      TotalsKept(limit, init, s, run[0]);
      TotalsRun(limit, init, Apply(limit, s, run[0]), run[1..], t);
    }
  }

  /** In every interleaving no two grants return the same total, so each number from one above what
      was there before up to the limit is returned at most once. */
  lemma GrantsDiffer(limit: int, init: State, run: seq<Step>, t: State)
    requires Initial(init) && Reaches(limit, init, run, t)
    ensures Totals(limit, init, t)
  {
    InitHolds(limit, init);
    TotalsRun(limit, init, init, run, t);
  }
}
