/** Counting the concurrent calls of a system by what they are doing. */
module Counting {

  function Min(a: int, b: int): int { if a < b then a else b }

  datatype Call<K, D> = Call(kind: K, data: D)

  function Count<K, D>(calls: seq<Call<K, D>>, f: K -> bool): (n: nat)
    ensures n <= |calls|
  {
    if calls == [] then 0
    else Count(calls[..|calls| - 1], f) + if f(calls[|calls| - 1].kind) then 1 else 0
  }

  function One<K>(f: K -> bool, k: K): nat { if f(k) then 1 else 0 }

  lemma {:induction false} CountUpdate<K, D>(calls: seq<Call<K, D>>, j: nat, c: Call<K, D>, f: K -> bool)
    requires j < |calls|
    ensures Count(calls[j := c], f) == Count(calls, f) - One(f, calls[j].kind) + One(f, c.kind)
  {
    var n := |calls| - 1;
    if j == n {
      assert calls[j := c][..n] == calls[..n];
    } else {
      assert calls[j := c][..n] == calls[..n][j := c];
      CountUpdate(calls[..n], j, c, f);
    }
  }

  lemma {:induction false} CountNone<K, D>(calls: seq<Call<K, D>>, f: K -> bool)
    ensures Count(calls, f) == 0 <==> forall j :: 0 <= j < |calls| ==> !f(calls[j].kind)
  {
    if calls != [] {
      CountNone(calls[..|calls| - 1], f);
    }
  }

  /** Two kinds that never meet and cover all calls. */
  lemma {:induction false} CountSplits<K, D>(calls: seq<Call<K, D>>, f: K -> bool, g: K -> bool)
    requires forall j :: 0 <= j < |calls| ==> f(calls[j].kind) != g(calls[j].kind)
    ensures Count(calls, f) + Count(calls, g) == |calls|
  {
    if calls != [] {
      CountSplits(calls[..|calls| - 1], f, g);
    }
  }

  // ----- Buckets -----

  function Sum(buckets: seq<int>): int {
    if buckets == [] then 0 else Sum(buckets[..|buckets| - 1]) + buckets[|buckets| - 1]
  }

  lemma {:induction false} SumUpdate(buckets: seq<int>, i: nat, v: int)
    requires i < |buckets|
    ensures Sum(buckets[i := v]) == Sum(buckets) - buckets[i] + v
  {
    var n := |buckets| - 1;
    if i == n {
      assert buckets[i := v][..n] == buckets[..n];
    } else {
      assert buckets[i := v][..n] == buckets[..n][i := v];
      SumUpdate(buckets[..n], i, v);
    }
  }

  lemma {:induction false} SumNonNegative(buckets: seq<int>)
    requires forall i :: 0 <= i < |buckets| ==> buckets[i] >= 0
    ensures Sum(buckets) >= 0
    ensures Sum(buckets) == 0 <==> forall i :: 0 <= i < |buckets| ==> buckets[i] == 0
  {
    if buckets != [] {
      SumNonNegative(buckets[..|buckets| - 1]);
    }
  }

  /** Slots in use; a negative bucket counts as empty. */
  function Used(buckets: seq<int>): (n: nat)
    ensures (forall i :: 0 <= i < |buckets| ==> buckets[i] <= 0) <==> n == 0
  {
    if buckets == [] then 0
    else Used(buckets[..|buckets| - 1]) + if buckets[|buckets| - 1] > 0 then buckets[|buckets| - 1] else 0
  }

  /** What the buckets hold, negative ones taken as empty. */
  function Positive(buckets: seq<int>): seq<int> {
    seq(|buckets|, i requires 0 <= i < |buckets| => if buckets[i] > 0 then buckets[i] else 0)
  }

  lemma {:induction false} UsedIsSum(buckets: seq<int>)
    ensures Used(buckets) == Sum(Positive(buckets))
  {
    if buckets != [] {
      var n := |buckets| - 1;
      UsedIsSum(buckets[..n]);
      assert Positive(buckets)[..n] == Positive(buckets[..n]);
    }
  }

  /** The buckets that hold slots, earliest first. */
  function Occupied(buckets: seq<int>): seq<nat> {
    if buckets == [] then []
    else
      var n := |buckets| - 1;
      Occupied(buckets[..n]) + if buckets[n] > 0 then [n] else []
  }

  lemma {:induction false} OccupiedExactly(buckets: seq<int>)
    ensures forall i :: i in Occupied(buckets) <==> 0 <= i < |buckets| && buckets[i] > 0
    ensures forall i, j :: 0 <= i < j < |Occupied(buckets)| ==> Occupied(buckets)[i] < Occupied(buckets)[j]
  {
    if buckets != [] {
      var front := Occupied(buckets[..|buckets| - 1]);
      OccupiedExactly(buckets[..|buckets| - 1]);
      assert forall i :: 0 <= i < |front| ==> front[i] in front;
    }
  }

  /** The pass over the values read: their total, and which buckets to try. */
  method ReadBuckets(buckets: seq<int>) returns (total: nat, occupied: seq<nat>)
    ensures total == Used(buckets) && occupied == Occupied(buckets)
  {
    total, occupied := 0, [];
    for i := 0 to |buckets|
      invariant total == Used(buckets[..i]) && occupied == Occupied(buckets[..i])
    {
      assert buckets[..i + 1][..i] == buckets[..i];
      if buckets[i] > 0 {
        occupied := occupied + [i];
        total := total + buckets[i];
      }
    }
    assert buckets[..|buckets|] == buckets;
  }
}
