/** Filter options combine into one clause, and write what they combined back into themselves. */
module PagerFilters {
  import opened Options
  import opened FilterText
  import opened FilterSpec
  import opened FilterRoundTrip
  import opened FilterParses
  import PagerSpec

  function Filters(clauses: seq<string>): seq<PagerSpec.Wish> {
    seq(|clauses|, i requires 0 <= i < |clauses| => PagerSpec.Filter(clauses[i]))
  }

  /** What a list of filters leaves in new settings. */
  function Left(clauses: seq<string>): PagerSpec.Settings { PagerSpec.MeetAll(PagerSpec.INITIAL, Filters(clauses)) }

  // ----- Composition -----

  function Text(q: Option<Query>): string { if q.None? then "" else Render(q.value) }

  function Texts(qs: seq<Option<Query>>): (r: seq<string>)
    ensures |r| == |qs|
  {
    if qs == [] then [] else Texts(qs[..|qs| - 1]) + [Text(qs[|qs| - 1])]
  }

  /** All queries given, nested to the left under AND. */
  function Nest(qs: seq<Option<Query>>): Option<Query> {
    if qs == [] then None
    else
      var before, q := Nest(qs[..|qs| - 1]), qs[|qs| - 1];
      if q.None? then before
      else if before.None? then q
      else Some(Group(before.value, More(AND, q.value, End)))
  }

  ghost predicate AllValid(qs: seq<Option<Query>>) {
    forall i :: 0 <= i < |qs| && qs[i].Some? ==> Valid(qs[i].value)
  }

  lemma RenderAnd(a: Query, b: Query)
    ensures Render(Group(a, More(AND, b, End))) == PagerSpec.And(Render(a), Render(b))
  {
    assert RenderRest(More(AND, b, End)) == "," + AND + "," + Render(b) + "" == ",AND," + Render(b);
    assert "(" + Render(a) + (",AND," + Render(b)) + ")" == "(" + Render(a) + ",AND," + Render(b) + ")";
  }

  lemma NothingLeft()
    ensures Left([]) == PagerSpec.INITIAL
  {
    assert Filters([]) == [];
  }

  lemma LeftNext(clauses: seq<string>, c: string)
    ensures var before, f := Left(clauses), Left(clauses).filter;
      Left(clauses + [c]) == before.(filter := if c == "" then f else if f == "" then c else PagerSpec.And(f, c))
  {
    assert Filters(clauses + [c]) == Filters(clauses) + [PagerSpec.Filter(c)];
    PagerSpec.MeetNext(PagerSpec.INITIAL, Filters(clauses), PagerSpec.Filter(c));
  }

  lemma RenderNonEmpty(q: Query)
    ensures Render(q) != ""
  {
  }

  lemma {:induction false} FiltersNest(qs: seq<Option<Query>>)
    requires AllValid(qs)
    ensures Left(Texts(qs)) == PagerSpec.INITIAL.(filter := Text(Nest(qs))) && (Nest(qs).Some? ==> Valid(Nest(qs).value))
  {
    hide Valid, PagerSpec.And, Render, Left;
    NothingLeft();
    if qs != [] {
      var n := |qs| - 1;
      FiltersNest(qs[..n]);
      LeftNext(Texts(qs[..n]), Text(qs[n]));
      if qs[n].Some? {
        RenderNonEmpty(qs[n].value);
      }
      if Nest(qs[..n]).Some? {
        RenderNonEmpty(Nest(qs[..n]).value);
      }
      if qs[n].Some? && Nest(qs[..n]).Some? {
        RenderAnd(Nest(qs[..n]).value, qs[n].value);
        GroupValid(Nest(qs[..n]).value, qs[n].value);
      }
    }
  }

  lemma GroupValid(a: Query, b: Query)
    requires Valid(a) && Valid(b)
    ensures Valid(Group(a, More(AND, b, End)))
  {
    assert ValidRest(End);
  }

  /** Any sequence of filter options, each empty or in the grammar, leaves one left-nested AND
      filter and nothing else; it parses, and printing what it parses to gives it back. */
  lemma FiltersParse(qs: seq<Option<Query>>)
    requires AllValid(qs)
    ensures var f := Left(Texts(qs)).filter;
      && Left(Texts(qs)) == PagerSpec.INITIAL.(filter := f)
      && if Nest(qs).None? then f == ""
         else Valid(Nest(qs).value) && f == Render(Nest(qs).value)
              && Parse(f) == Parsed(Built(Nest(qs).value)) && Print(Built(Nest(qs).value)) == f
  {
    hide Parse, Valid, Built, Print;
    FiltersNest(qs);
    if Nest(qs).Some? {
      RoundTrip(Nest(qs).value);
    }
  }

  /** So do filter options that are each given once, whatever objects they are. */
  lemma OptionsParse<K>(order: seq<K>, held: map<K, PagerSpec.Wish>, qs: seq<Option<Query>>)
    requires AllValid(qs) && |order| == |qs| && forall i, j :: 0 <= i < j < |order| ==> order[i] != order[j]
    requires forall i :: 0 <= i < |order| ==> order[i] in held && held[order[i]] == PagerSpec.Filter(Text(qs[i]))
    ensures var s := PagerSpec.MeetAll(PagerSpec.INITIAL, PagerSpec.Turns(order, held).wishes);
      && s == PagerSpec.INITIAL.(filter := s.filter)
      && if Nest(qs).None? then s.filter == ""
         else s.filter == Render(Nest(qs).value)
              && Parse(s.filter) == Parsed(Built(Nest(qs).value)) && Print(Built(Nest(qs).value)) == s.filter
  {
    hide Parse, Valid, Built, Print, PagerSpec.MeetAll, PagerSpec.Turns, Text;
    PagerSpec.DistinctTurns(order, held);
    TextsAt(qs);
    assert PagerSpec.Turns(order, held).wishes == Filters(Texts(qs));
    FiltersParse(qs);
  }

  lemma {:induction false} TextsAt(qs: seq<Option<Query>>)
    ensures forall i :: 0 <= i < |qs| ==> Texts(qs)[i] == Text(qs[i])
  {
    if qs != [] { TextsAt(qs[..|qs| - 1]); }
  }
}
