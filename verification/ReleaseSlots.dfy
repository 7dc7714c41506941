/** Any number of concurrent releases of rate limit slots. A call reads all buckets, then
    decrements the occupied ones in turn until one stays at zero or above; a decrement that goes
    below is undone. Other calls run between any two of these steps. */
module ReleaseSlots {
  import opened Counting

  datatype Kind = Start | Trying | Undoing(i: nat) | Kept(i: nat) | NoneKept

  /** The data of a call: the buckets it has still to try. */
  datatype State = State(buckets: seq<int>, calls: seq<Call<Kind, seq<nat>>>)

  datatype Step = Read(j: nat) | Decrement(j: nat) | Undo(j: nat)

  function IsKept(k: Kind): bool { k.Kept? }
  function IsUndoing(k: Kind): bool { k.Undoing? }
  function KeptOn(i: nat): Kind -> bool { k => k == Kept(i) }
  function UndoingOn(i: nat): Kind -> bool { k => k == Undoing(i) }

  predicate Enabled(s: State, e: Step) {
    && e.j < |s.calls|
    && match e
       case Read(j) => s.calls[j].kind.Start?
       case Decrement(j) => s.calls[j].kind.Trying? && s.calls[j].data != [] && s.calls[j].data[0] < |s.buckets|
       case Undo(j) => s.calls[j].kind.Undoing? && s.calls[j].kind.i < |s.buckets|
  }

  /** What a call does next with the buckets it has left. */
  function Going(todo: seq<nat>): Call<Kind, seq<nat>> {
    Call(if todo == [] then NoneKept else Trying, todo)
  }

  function Apply(s: State, e: Step): State
    requires Enabled(s, e)
  {
    var j := e.j;
    match e
    case Read(_) => s.(calls := s.calls[j := Going(if Used(s.buckets) > 0 then Occupied(s.buckets) else [])])
    case Decrement(_) =>
      var i, rest := s.calls[j].data[0], s.calls[j].data[1..];
      var v := s.buckets[i] - 1;
      State(s.buckets[i := v], s.calls[j := Call(if v >= 0 then Kept(i) else Undoing(i), rest)])
    case Undo(_) =>
      var i := s.calls[j].kind.i;
      State(s.buckets[i := s.buckets[i] + 1], s.calls[j := Going(s.calls[j].data)])
  }

  ghost predicate Reaches(s: State, run: seq<Step>, t: State)
    decreases run
  {
    if run == [] then s == t else Enabled(s, run[0]) && Reaches(Apply(s, run[0]), run[1..], t)
  }

  predicate Initial(s: State) {
    && (forall i :: 0 <= i < |s.buckets| ==> s.buckets[i] >= 0)
    && forall j :: 0 <= j < |s.calls| ==> s.calls[j].kind.Start?
  }

  function KeptAt(s: State, i: nat): nat { Count(s.calls, KeptOn(i)) }
  function UndoingAt(s: State, i: nat): nat { Count(s.calls, UndoingOn(i)) }

  predicate Exhausted(init: State, s: State, i: nat)
    requires i < |init.buckets|
  {
    KeptAt(s, i) == init.buckets[i]
  }

  /** Every bucket the call will not try again is exhausted. */
  ghost predicate LeavesNone(init: State, s: State, c: Call<Kind, seq<nat>>) {
    match c.kind
    case Trying => forall i :: 0 <= i < |init.buckets| && i !in c.data ==> Exhausted(init, s, i)
    case Undoing(_) => forall i :: 0 <= i < |init.buckets| && i !in c.data ==> Exhausted(init, s, i)
    case NoneKept => forall i :: 0 <= i < |init.buckets| ==> Exhausted(init, s, i)
    case _ => true
  }

  ghost predicate BucketInv(init: State, s: State, i: nat)
    requires i < |init.buckets| == |s.buckets|
  {
    && s.buckets[i] == init.buckets[i] - KeptAt(s, i) - UndoingAt(s, i)
    && KeptAt(s, i) <= init.buckets[i]
    && (UndoingAt(s, i) > 0 ==> Exhausted(init, s, i))
  }

  ghost predicate Inv(init: State, s: State) {
    && Initial(init) && |s.buckets| == |init.buckets| && |s.calls| == |init.calls|
    && (forall i :: 0 <= i < |s.buckets| ==> BucketInv(init, s, i))
    && Sum(s.buckets) == Sum(init.buckets) - Count(s.calls, IsKept) - Count(s.calls, IsUndoing)
    && (forall j :: 0 <= j < |s.calls| ==> LeavesNone(init, s, s.calls[j]))
  }

  /** What one step does to the calls counted on a bucket. */
  lemma CountsAfter(s: State, j: nat, c: Call<Kind, seq<nat>>)
    requires j < |s.calls|
    ensures var calls := s.calls[j := c];
      && (forall i: nat :: Count(calls, KeptOn(i)) == KeptAt(s, i) - One(KeptOn(i), s.calls[j].kind) + One(KeptOn(i), c.kind))
      && (forall i: nat :: Count(calls, UndoingOn(i)) ==
                           UndoingAt(s, i) - One(UndoingOn(i), s.calls[j].kind) + One(UndoingOn(i), c.kind))
      && Count(calls, IsKept) == Count(s.calls, IsKept) - One(IsKept, s.calls[j].kind) + One(IsKept, c.kind)
      && Count(calls, IsUndoing) == Count(s.calls, IsUndoing) - One(IsUndoing, s.calls[j].kind) + One(IsUndoing, c.kind)
  {
    forall i: nat
      ensures Count(s.calls[j := c], KeptOn(i)) == KeptAt(s, i) - One(KeptOn(i), s.calls[j].kind) + One(KeptOn(i), c.kind)
    {
      CountUpdate(s.calls, j, c, KeptOn(i));
    }
    forall i: nat
      ensures Count(s.calls[j := c], UndoingOn(i)) ==
              UndoingAt(s, i) - One(UndoingOn(i), s.calls[j].kind) + One(UndoingOn(i), c.kind)
    {
      CountUpdate(s.calls, j, c, UndoingOn(i));
    }
    CountUpdate(s.calls, j, c, IsKept);
    CountUpdate(s.calls, j, c, IsUndoing);
  }

  lemma ReadLeaves(init: State, s: State, e: Step)
    requires Inv(init, s) && Enabled(s, e) && e.Read?
    ensures var t := Apply(s, e);
      forall i :: 0 <= i < |s.buckets| ==>
        BucketInv(init, t, i) && (s.buckets[i] <= 0 || Exhausted(init, s, i) ==> Exhausted(init, t, i))
    ensures var t := Apply(s, e);
      Sum(t.buckets) == Sum(init.buckets) - Count(t.calls, IsKept) - Count(t.calls, IsUndoing)
  {
    hide LeavesNone, Occupied, Used;
    var t := Apply(s, e);
    CountsAfter(s, e.j, t.calls[e.j]);
    forall i | 0 <= i < |s.buckets|
      ensures BucketInv(init, t, i) && (s.buckets[i] <= 0 || Exhausted(init, s, i) ==> Exhausted(init, t, i))
    {
      assert BucketInv(init, s, i);
    }
  }

  lemma ReadKeeps(init: State, s: State, e: Step)
    requires Inv(init, s) && Enabled(s, e) && e.Read?
    ensures Inv(init, Apply(s, e))
  {
    hide BucketInv, Sum, Count, Exhausted, Occupied, Used;
    var t := Apply(s, e);
    ReadLeaves(init, s, e);
    OccupiedExactly(s.buckets);
    forall k | 0 <= k < |s.calls| ensures LeavesNone(init, t, t.calls[k]) {
      assert LeavesNone(init, s, s.calls[k]);
    }
  }

  lemma DecrementBuckets(init: State, s: State, e: Step)
    requires Inv(init, s) && Enabled(s, e) && e.Decrement?
    ensures var t := Apply(s, e);
      && (forall k :: 0 <= k < |s.buckets| ==> BucketInv(init, t, k) && (Exhausted(init, s, k) ==> Exhausted(init, t, k)))
      && Sum(t.buckets) == Sum(init.buckets) - Count(t.calls, IsKept) - Count(t.calls, IsUndoing)
      && (t.calls[e.j].kind.Undoing? ==> Exhausted(init, t, s.calls[e.j].data[0]))
  {
    var t, c := Apply(s, e), s.calls[e.j];
    var i := c.data[0];
    CountsAfter(s, e.j, t.calls[e.j]);
    SumUpdate(s.buckets, i, s.buckets[i] - 1);
    assert BucketInv(init, s, i);
    forall k | 0 <= k < |s.buckets| ensures BucketInv(init, t, k) && (Exhausted(init, s, k) ==> Exhausted(init, t, k)) {
      assert BucketInv(init, s, k);
    }
  }

  lemma DecrementKeeps(init: State, s: State, e: Step)
    requires Inv(init, s) && Enabled(s, e) && e.Decrement?
    ensures Inv(init, Apply(s, e))
  {
    hide BucketInv, Sum, Count, Exhausted;
    var t, c := Apply(s, e), s.calls[e.j];
    DecrementBuckets(init, s, e);
    assert forall k :: k in c.data ==> k == c.data[0] || k in c.data[1..];
    forall k | 0 <= k < |s.calls| ensures LeavesNone(init, t, t.calls[k]) {
      assert LeavesNone(init, s, s.calls[k]);
    }
  }

  lemma UndoKeeps(init: State, s: State, e: Step)
    requires Inv(init, s) && Enabled(s, e) && e.Undo?
    ensures Inv(init, Apply(s, e))
  {
    var t, c := Apply(s, e), s.calls[e.j];
    var i := c.kind.i;
    CountsAfter(s, e.j, t.calls[e.j]);
    SumUpdate(s.buckets, i, s.buckets[i] + 1);
    forall k | 0 <= k < |s.buckets| ensures BucketInv(init, t, k) && (Exhausted(init, s, k) ==> Exhausted(init, t, k)) {
      assert BucketInv(init, s, k);
    }
    forall k | 0 <= k < |s.calls| ensures LeavesNone(init, t, t.calls[k]) {
      assert LeavesNone(init, s, s.calls[k]);
    }
  }

  lemma StepKeeps(init: State, s: State, e: Step)
    requires Inv(init, s) && Enabled(s, e)
    ensures Inv(init, Apply(s, e))
  {
    hide Inv, Apply, Enabled;
    match e
    case Read(_) => ReadKeeps(init, s, e);
    case Decrement(_) => DecrementKeeps(init, s, e);
    case Undo(_) => UndoKeeps(init, s, e);
  }

  lemma {:induction false} RunKeeps(init: State, s: State, run: seq<Step>, t: State)
    requires Inv(init, s) && Reaches(s, run, t)
    ensures Inv(init, t)
    decreases run
  {
    hide Inv, Apply;
    if run != [] {
      StepKeeps(init, s, run[0]);
      RunKeeps(init, Apply(s, run[0]), run[1..], t);
    }
  }

  lemma InitHolds(init: State)
    requires Initial(init)
    ensures Inv(init, init)
  {
    CountNone(init.calls, IsKept);
    CountNone(init.calls, IsUndoing);
    forall i | 0 <= i < |init.buckets| ensures BucketInv(init, init, i) {
      CountNone(init.calls, KeptOn(i));
      CountNone(init.calls, UndoingOn(i));
    }
  }

  /** In every interleaving no bucket gives up more slots than it held. */
  lemma NeverOverReleased(init: State, run: seq<Step>, t: State, i: nat)
    requires Initial(init) && Reaches(init, run, t) && i < |init.buckets|
    ensures KeptAt(t, i) <= init.buckets[i]
    ensures |t.buckets| == |init.buckets| && t.buckets[i] == init.buckets[i] - KeptAt(t, i) - UndoingAt(t, i)
  {
    InitHolds(init);
    RunKeeps(init, init, run, t);
    assert BucketInv(init, t, i);
  }

  predicate Quiet(s: State) {
    forall j :: 0 <= j < |s.calls| ==> s.calls[j].kind.Kept? || s.calls[j].kind.NoneKept?
  }

  function IsNone(k: Kind): bool { k.NoneKept? }

  /** When all calls are done no bucket is negative, the sum has dropped by the decrements kept, and
      every call kept one as long as there were slots. */
  lemma QuietExact(init: State, run: seq<Step>, t: State)
    requires Initial(init) && Reaches(init, run, t) && Quiet(t)
    ensures forall i :: 0 <= i < |t.buckets| ==> t.buckets[i] >= 0
    ensures Sum(t.buckets) == Sum(init.buckets) - Count(t.calls, IsKept)
    ensures Count(t.calls, IsKept) == Min(|t.calls|, Sum(init.buckets))
  {
    InitHolds(init);
    RunKeeps(init, init, run, t);
    CountNone(t.calls, IsUndoing);
    forall i | 0 <= i < |t.buckets|
      ensures t.buckets[i] >= 0 && (Exhausted(init, t, i) ==> t.buckets[i] == 0)
    {
      assert BucketInv(init, t, i);
      CountNone(t.calls, UndoingOn(i));
    }
    SumNonNegative(t.buckets);
    if exists j :: 0 <= j < |t.calls| && t.calls[j].kind.NoneKept? {
      var j :| 0 <= j < |t.calls| && t.calls[j].kind.NoneKept?;
      assert LeavesNone(init, t, t.calls[j]);
      assert forall i :: 0 <= i < |t.buckets| ==> Exhausted(init, t, i);
    } else {
      CountNone(t.calls, IsNone);
      CountSplits(t.calls, IsKept, IsNone);
    }
  }

  /** A call that nobody interferes with takes its slot from the earliest bucket that has one, and
      from no other. */
  lemma EarliestFirst(s: State, j: nat, i: nat)
    requires j < |s.calls| && s.calls[j].kind.Start? && i < |s.buckets| && s.buckets[i] > 0
    requires forall k :: 0 <= k < i ==> s.buckets[k] <= 0
    ensures Enabled(s, Read(j)) && Enabled(Apply(s, Read(j)), Decrement(j))
    ensures var t := Apply(Apply(s, Read(j)), Decrement(j));
      t.buckets == s.buckets[i := s.buckets[i] - 1] && t.calls[j].kind == Kept(i)
  {
    var occupied := Occupied(s.buckets);
    OccupiedExactly(s.buckets);
    assert i in occupied;
    assert occupied[0] in occupied;
    assert Used(s.buckets) > 0;
    hide Occupied, Used;
    var n :| 0 <= n < |occupied| && occupied[n] == i;
  }

  /** Without a slot in any bucket nothing is taken. */
  lemma NoneToRelease(s: State, j: nat)
    requires j < |s.calls| && s.calls[j].kind.Start? && forall k :: 0 <= k < |s.buckets| ==> s.buckets[k] <= 0
    ensures Apply(s, Read(j)).buckets == s.buckets && Apply(s, Read(j)).calls[j].kind == NoneKept
  {
  }
}
