/** Pagination settings as a value: what each option does to them, what makes them valid, and how
    they travel in query parameters. No result type is specified, so no server-side validators. */
module PagerSpec {
  import opened Options
  import opened FilterText
  import opened FilterSpec
  import opened PagerText

  const DEFAULT_LIMIT := 50
  const MAX_LIMIT := 1500
  const CURSOR_BEGIN := ""
  const CURSOR_END := "end"
  const ASCENDING := "ascending"
  const DESCENDING := "descending"

  datatype Direction = Forward | Backward

  datatype Settings = Settings(
    cursor: string, direction: Direction, backwardSet: bool, forwardSet: bool,
    limit: int, sortKey: string, sortOrder: string,
    filter: string, filterQuery: Option<Tree>, duplicateKeys: bool, version: int)

  const INITIAL :=
    Settings("", Forward, false, false, 0, "id", ASCENDING, "", None, false, 3)

  /** What an option asks for. */
  datatype Wish =
    | StartingAfter(cursor: string)
    | EndingBefore(cursor: string)
    | Limit(limit: int)
    | Filter(filter: string)
    | SortKey(key: string)
    | SortOrder(order: string)
    | RequestVersion(version: int)

  function And(a: string, b: string): string { "(" + a + ",AND," + b + ")" }

  /** The clause an option ends up with when it meets what is there already. */
  function Combined(current: string, clause: string): string {
    if clause != "" && current != "" then And(current, clause) else clause
  }

  function Meet(s: Settings, w: Wish): Settings {
    match w
    case StartingAfter(c) => s.(cursor := c, direction := Forward, forwardSet := true)
    case EndingBefore(c) => s.(cursor := c, direction := Backward, backwardSet := true)
    case Limit(n) => s.(limit := n)
    case Filter(f) => if f == "" then s else s.(filter := Combined(s.filter, f))
    case SortKey(k) => s.(sortKey := k)
    case SortOrder(o) => s.(sortOrder := o)
    case RequestVersion(v) => s.(version := v)
  }

  function MeetAll(s: Settings, ws: seq<Wish>): Settings {
    if ws == [] then s else Meet(MeetAll(s, ws[..|ws| - 1]), ws[|ws| - 1])
  }

  // ----- The options of one call, in order -----

  /** What an option holds after it has been applied: a filter has taken in the clause it met. */
  function Afterwards(s: Settings, w: Wish): Wish {
    if w.Filter? then Filter(Combined(s.filter, w.filter)) else w
  }

  /** What each option asks for when its turn comes, and what they all hold in the end. An option
      that comes twice asks the second time for what the first time has left in it. */
  datatype Round<K> = Round(wishes: seq<Wish>, held: map<K, Wish>)

  ghost function Turns<K>(order: seq<K>, held: map<K, Wish>): (r: Round<K>)
    requires forall o :: o in order ==> o in held
    ensures |r.wishes| == |order| && r.held.Keys == held.Keys
  {
    if order == [] then Round([], held)
    else
      var before, o := Turns(order[..|order| - 1], held), order[|order| - 1];
      var w := before.held[o];
      Round(before.wishes + [w], before.held[o := Afterwards(MeetAll(INITIAL, before.wishes), w)])
  }

  lemma NoTurns<K>(held: map<K, Wish>)
    ensures Turns([], held) == Round([], held)
  {
  }

  lemma TurnsNext<K>(order: seq<K>, o: K, held: map<K, Wish>)
    requires o in held && forall k :: k in order ==> k in held
    ensures var before := Turns(order, held);
      Turns(order + [o], held) ==
      Round(before.wishes + [before.held[o]], before.held[o := Afterwards(MeetAll(INITIAL, before.wishes), before.held[o])])
  {
    assert (order + [o])[..|order|] == order;
  }

  /** Options that are not applied play no part. */
  lemma {:induction false} TurnsOfOthers<K>(order: seq<K>, held: map<K, Wish>, more: map<K, Wish>)
    requires forall o :: o in order ==> o in held && o in more && held[o] == more[o]
    ensures Turns(order, held).wishes == Turns(order, more).wishes
    ensures forall o :: o in order ==> Turns(order, held).held[o] == Turns(order, more).held[o]
    ensures forall o :: o in held && o !in order ==> Turns(order, held).held[o] == held[o]
  {
    hide Turns, MeetAll, Afterwards;
    if order == [] {
      NoTurns(held);
      NoTurns(more);
    } else {
      var n := |order| - 1;
      assert order == order[..n] + [order[n]];
      TurnsOfOthers(order[..n], held, more);
      TurnsNext(order[..n], order[n], held);
      TurnsNext(order[..n], order[n], more);
      assert order[n] in order[..n] || Turns(order[..n], held).held[order[n]] == held[order[n]];
      TurnsOfOthers(order[..n], more, held);
    }
  }

  /** Options that are each given once ask for what they held before the call. */
  lemma {:induction false} DistinctTurns<K>(order: seq<K>, held: map<K, Wish>)
    requires (forall o :: o in order ==> o in held) && (forall i, j :: 0 <= i < j < |order| ==> order[i] != order[j])
    ensures forall i :: 0 <= i < |order| ==> Turns(order, held).wishes[i] == held[order[i]]
  {
    if order != [] {
      hide MeetAll, Afterwards;
      var n := |order| - 1;
      DistinctTurns(order[..n], held);
      TurnsOfOthers(order[..n], held, held);
      assert order[n] !in order[..n];
    }
  }

  // ----- Validity -----

  predicate Distinct(keys: seq<string>) { forall i, j :: 0 <= i < j < |keys| ==> keys[i] != keys[j] }

  /** A cursor is one of the two ends, in the direction that leads away from it, or a list of
      key:value pairs with distinct keys. */
  predicate ValidCursor(c: string, direction: Direction) {
    if c == CURSOR_BEGIN then direction.Forward?
    else if c == CURSOR_END then direction.Backward?
    else
      var pairs := Split(c, ",");
      && (forall i :: 0 <= i < |pairs| ==> |Split(pairs[i], ":")| == 2)
      && forall i, j :: 0 <= i < j < |pairs| ==> Split(pairs[i], ":")[0] != Split(pairs[j], ":")[0]
  }

  predicate Validates(s: Settings) {
    && (s.version == 2 || s.version == 3)
    && 0 < s.limit <= MAX_LIMIT
    && (s.sortOrder == ASCENDING || s.sortOrder == DESCENDING)
    && s.forwardSet != s.backwardSet
    && s.sortKey != "" && !s.duplicateKeys
    && (s.filter != "" <==> s.filterQuery.Some?)
    && ValidCursor(s.cursor, s.direction)
  }

  // ----- From options to settings -----

  function Defaults(s: Settings): Settings {
    var a := if s.limit == 0 then s.(limit := DEFAULT_LIMIT) else s;
    var b := if !a.backwardSet && !a.forwardSet then a.(forwardSet := true, cursor := CURSOR_BEGIN) else a;
    b.(direction := if b.forwardSet then Forward else Backward)
  }

  /** Settings whose derived fields are derived from the others. */
  predicate Derived(s: Settings) {
    && s.direction == (if s.forwardSet then Forward else Backward)
    && s.duplicateKeys == !Distinct(Split(s.sortKey, ","))
    && s.filterQuery == (if s.filter == "" then None
                         else match Parse(s.filter) case Parsed(t) => Some(t) case Rejected(_) => None)
  }

  /** None when the filter does not parse or the settings are not valid. */
  function Finished(s0: Settings): (r: Option<Settings>)
    requires s0.filterQuery.None? && !s0.duplicateKeys
    ensures r.Some? ==> Validates(r.value) && Derived(r.value)
  {
    var s := Defaults(s0).(duplicateKeys := !Distinct(Split(s0.sortKey, ",")));
    if s.filter == "" then (if Validates(s) then Some(s) else None)
    else match Parse(s.filter)
      case Rejected(_) => None
      case Parsed(t) => if Validates(s.(filterQuery := Some(t))) then Some(s.(filterQuery := Some(t))) else None
  }

  lemma {:induction false} MeetAllLeaves(s: Settings, ws: seq<Wish>)
    ensures MeetAll(s, ws).filterQuery == s.filterQuery && MeetAll(s, ws).duplicateKeys == s.duplicateKeys
  {
    if ws != [] {
      MeetAllLeaves(s, ws[..|ws| - 1]);
    }
  }

  function ApplyOptions(ws: seq<Wish>): (r: Option<Settings>)
    ensures r.Some? ==> Validates(r.value) && Derived(r.value)
  {
    MeetAllLeaves(INITIAL, ws);
    Finished(MeetAll(INITIAL, ws))
  }

  // ----- Query parameters -----

  datatype QueryParams = QueryParams(
    startingAfter: Option<string>, endingBefore: Option<string>, limit: Option<string>, filter: Option<string>,
    sortKey: Option<string>, sortOrder: Option<string>, version: Option<string>)

  function Query(s: Settings): QueryParams
    requires s.version >= 0
  {
    QueryParams(
      if s.direction.Forward? then Some(s.cursor) else None,
      if s.direction.Forward? then None else Some(s.cursor),
      if s.limit > 0 then Some(Itoa(s.limit)) else None,
      if s.filter != "" then Some(s.filter) else None,
      Some(s.sortKey), Some(s.sortOrder), Some(Itoa(s.version)))
  }

  function Given(o: Option<string>, w: Wish): seq<Wish> {
    if o.None? then [] else [w]
  }

  function TextOf(o: Option<string>): string { if o.None? then "" else o.value }

  function NumberOf(o: Option<string>): Option<int> { if o.None? then Some(0) else Atoi(o.value) }

  /** The options a query asks for, in the order in which they are applied. None when a number does
      not parse. */
  function Wishes(q: QueryParams): Option<seq<Wish>> {
    match (NumberOf(q.limit), NumberOf(q.version))
    case (Some(limit), Some(version)) =>
      Some(Given(q.startingAfter, StartingAfter(TextOf(q.startingAfter)))
           + Given(q.endingBefore, EndingBefore(TextOf(q.endingBefore)))
           + Given(q.limit, Limit(limit))
           + Given(q.filter, Filter(TextOf(q.filter)))
           + Given(q.sortKey, SortKey(TextOf(q.sortKey)))
           + Given(q.sortOrder, SortOrder(TextOf(q.sortOrder)))
           + Given(q.version, RequestVersion(version)))
    case _ => None
  }

  function NewPaginatorFromQuery(q: QueryParams, defaults: seq<Wish>): Option<Settings> {
    match Wishes(q)
    case None => None
    case Some(ws) => ApplyOptions(defaults + ws)
  }

  // ----- The round trip -----

  lemma MeetNext(s: Settings, ws: seq<Wish>, w: Wish)
    ensures MeetAll(s, ws + [w]) == Meet(MeetAll(s, ws), w)
  {
    assert (ws + [w])[..|ws|] == ws;
  }

  /** The wishes that the query of valid settings carries. */
  lemma QueryWishes(s: Settings)
    requires Validates(s)
    ensures Wishes(Query(s)) == Some(
              [if s.direction.Forward? then StartingAfter(s.cursor) else EndingBefore(s.cursor)]
              + [Limit(s.limit)] + (if s.filter != "" then [Filter(s.filter)] else [])
              + [SortKey(s.sortKey)] + [SortOrder(s.sortOrder)] + [RequestVersion(s.version)])
  {
    AtoiItoa(s.limit);
    AtoiItoa(s.version);
    var q := Query(s);
    var start := [if s.direction.Forward? then StartingAfter(s.cursor) else EndingBefore(s.cursor)];
    assert Given(q.startingAfter, StartingAfter(TextOf(q.startingAfter)))
           + Given(q.endingBefore, EndingBefore(TextOf(q.endingBefore))) == start;
  }

  lemma MeetQuery(s: Settings)
    requires Validates(s)
    ensures Wishes(Query(s)).Some?
    ensures MeetAll(INITIAL, Wishes(Query(s)).value) ==
            INITIAL.(cursor := s.cursor, direction := s.direction, forwardSet := s.direction.Forward?,
                     backwardSet := s.direction.Backward?, limit := s.limit, filter := s.filter,
                     sortKey := s.sortKey, sortOrder := s.sortOrder, version := s.version)
  {
    hide Query, Wishes, Validates, MeetAll;
    QueryWishes(s);
    var a := [if s.direction.Forward? then StartingAfter(s.cursor) else EndingBefore(s.cursor)];
    var b := a + [Limit(s.limit)];
    var c := b + if s.filter != "" then [Filter(s.filter)] else [];
    MeetNone(INITIAL);
    assert a == [] + a;
    MeetNext(INITIAL, [], a[0]);
    MeetNext(INITIAL, a, Limit(s.limit));
    if s.filter != "" {
      MeetNext(INITIAL, b, Filter(s.filter));
    } else {
      assert c == b;
    }
    MeetNext(INITIAL, c, SortKey(s.sortKey));
    MeetNext(INITIAL, c + [SortKey(s.sortKey)], SortOrder(s.sortOrder));
    MeetNext(INITIAL, c + [SortKey(s.sortKey)] + [SortOrder(s.sortOrder)], RequestVersion(s.version));
  }

  lemma MeetNone(s: Settings)
    ensures MeetAll(s, []) == s
  {
  }

  /** Valid settings survive the trip through query parameters unchanged. */
  lemma QueryRoundTrip(s: Settings)
    requires Validates(s) && Derived(s)
    ensures NewPaginatorFromQuery(Query(s), []) == Some(s)
  {
    hide ValidCursor, Distinct, Parse, Split;
    MeetQuery(s);
    QueryWishes(s);
    var ws := Wishes(Query(s)).value;
    assert [] + ws == ws;
  }
}
