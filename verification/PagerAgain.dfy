/** Applying the same options again. A filter option keeps what it combined. */
module PagerAgain {
  import opened PagerSpec

  predicate IsClause(w: Wish) { w.Filter? && w.filter != "" }

  /** How many times a filter that is not empty is applied. */
  ghost function Clauses<K>(order: seq<K>, held: map<K, Wish>): nat
    requires forall o :: o in order ==> o in held
  {
    if order == [] then 0
    else Clauses(order[..|order| - 1], held) + if IsClause(held[order[|order| - 1]]) then 1 else 0
  }

  /** The option whose clause is applied last. */
  ghost function LastClause<K>(order: seq<K>, held: map<K, Wish>): (o: K)
    requires (forall o :: o in order ==> o in held) && Clauses(order, held) > 0
    ensures o in order && IsClause(held[o])
  {
    var last := order[|order| - 1];
    if IsClause(held[last]) then last else LastClause(order[..|order| - 1], held)
  }

  ghost function FilterAfter<K>(order: seq<K>, held: map<K, Wish>): string
    requires forall o :: o in order ==> o in held
  {
    MeetAll(INITIAL, Turns(order, held).wishes).filter
  }

  /** One turn, as far as filters are concerned. */
  lemma Turn<K>(order: seq<K>, held: map<K, Wish>)
    requires order != [] && forall o :: o in order ==> o in held
    ensures var n := |order| - 1;
      var before, o := Turns(order[..n], held), order[n];
      var f, w := FilterAfter(order[..n], held), before.held[o];
      && Turns(order, held).held == before.held[o := if w.Filter? then Filter(Combined(f, w.filter)) else w]
      && FilterAfter(order, held) == (if IsClause(w) then Combined(f, w.filter) else f)
  {
    hide Turns, MeetAll, Combined;
    var n := |order| - 1;
    assert order == order[..n] + [order[n]];
    TurnsNext(order[..n], order[n], held);
    MeetNext(INITIAL, Turns(order[..n], held).wishes, Turns(order[..n], held).held[order[n]]);
  }

  /** Clauses only grow, and nothing becomes a clause or stops being one. */
  lemma {:induction false} ClausesGrow<K>(order: seq<K>, held: map<K, Wish>)
    requires forall o :: o in order ==> o in held
    ensures FilterAfter(order, held) == "" <==> Clauses(order, held) == 0
    ensures var after := Turns(order, held).held;
      forall o :: o in held ==>
        && (held[o].Filter? ==> after[o].Filter? && |after[o].filter| >= |held[o].filter|)
        && (!IsClause(held[o]) ==> after[o] == held[o])
  {
    if order != [] {
      hide Turns, FilterAfter;
      ClausesGrow(order[..|order| - 1], held);
      Turn(order, held);
    } else {
      NoTurns(held);
    }
  }

  /** With one clause at most there is nothing to combine, and every option keeps what it held. */
  lemma {:induction false} OneClauseStays<K>(order: seq<K>, held: map<K, Wish>)
    requires (forall o :: o in order ==> o in held) && Clauses(order, held) <= 1
    ensures Turns(order, held).held == held
  {
    if order == [] {
      NoTurns(held);
    } else {
      hide Turns, FilterAfter;
      OneClauseStays(order[..|order| - 1], held);
      ClausesGrow(order[..|order| - 1], held);
      Turn(order, held);
    }
  }

  /** The option applied last holds what the paginator was left with. */
  lemma {:induction false} LastHoldsFilter<K>(order: seq<K>, held: map<K, Wish>)
    requires (forall o :: o in order ==> o in held) && Clauses(order, held) > 0
    ensures Turns(order, held).held[LastClause(order, held)] == Filter(FilterAfter(order, held))
  {
    hide Turns, FilterAfter;
    var n := |order| - 1;
    ClausesGrow(order[..n], held);
    Turn(order, held);
    if !IsClause(held[order[n]]) {
      LastHoldsFilter(order[..n], held);
    }
  }

  /** With two clauses the paginator is left with more than the last of them held before. */
  lemma {:induction false} FilterOutgrows<K>(order: seq<K>, held: map<K, Wish>)
    requires (forall o :: o in order ==> o in held) && Clauses(order, held) >= 2
    ensures |FilterAfter(order, held)| > |held[LastClause(order, held)].filter|
  {
    hide Turns, FilterAfter;
    var n := |order| - 1;
    ClausesGrow(order[..n], held);
    Turn(order, held);
    if !IsClause(held[order[n]]) {
      FilterOutgrows(order[..n], held);
    }
  }

  lemma {:induction false} SameClauses<K>(order: seq<K>, held: map<K, Wish>, after: map<K, Wish>)
    requires forall o :: o in order ==> o in held && o in after && (IsClause(held[o]) <==> IsClause(after[o]))
    ensures Clauses(order, held) == Clauses(order, after)
    ensures Clauses(order, held) > 0 ==> LastClause(order, held) == LastClause(order, after)
  {
    if order != [] { SameClauses(order[..|order| - 1], held, after); }
  }

  /** Applying a list of options a second time gives the same settings if and only if filters that
      are not empty are applied once at most: the others have taken in the ones before them. */
  lemma ReappliedIff<K>(order: seq<K>, held: map<K, Wish>)
    requires forall o :: o in order ==> o in held
    ensures var first := Turns(order, held);
      var second := Turns(order, first.held);
      MeetAll(INITIAL, second.wishes) == MeetAll(INITIAL, first.wishes) <==> Clauses(order, held) <= 1
  {
    hide Turns, MeetAll;
    var after := Turns(order, held).held;
    if Clauses(order, held) <= 1 {
      OneClauseStays(order, held);
    } else {
      ClausesGrow(order, held);
      SameClauses(order, held, after);
      LastHoldsFilter(order, held);
      FilterOutgrows(order, after);
    }
  }
}
