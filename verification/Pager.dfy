/** The paginator and its options as objects. A filter option keeps the clause it was given in a
    variable, and overwrites it when it is applied. */
module Pager {
  import opened Options
  import opened FilterText
  import opened FilterSpec
  import opened FilterHeap
  import opened FilterParser
  import opened PagerText
  import opened PagerSpec

  class PagerOption {
    const wish: Wish
    var filter: string

    constructor (wish: Wish)
      ensures this.wish == wish && Held() == wish
    {
      this.wish := wish;
      this.filter := if wish.Filter? then wish.filter else "";
    }

    /** What the option asks for now. */
    function Held(): Wish
      reads this
    {
      if wish.Filter? then PagerSpec.Filter(filter) else wish
    }

    method Apply(p: Paginator)
      modifies this`filter, p
      ensures p.View() == Meet(old(p.View()), old(Held())) && p.filterQuery == old(p.filterQuery)
      ensures Held() == if wish.Filter? then PagerSpec.Filter(Combined(old(p.filter), old(filter))) else wish
    {
      match wish
      case StartingAfter(c) => p.cursor, p.direction, p.forwardDirectionSet := c, Forward, true;
      case EndingBefore(c) => p.cursor, p.direction, p.backwardDirectionSet := c, Backward, true;
      case Limit(n) => p.limit := n;
      case Filter(_) =>
        if filter != "" {
          if p.filter != "" {
            filter := "(" + p.filter + ",AND," + filter + ")";
          }
          p.filter := filter;
        }
      case SortKey(k) => p.sortKey := k;
      case SortOrder(o) => p.sortOrder := o;
      case RequestVersion(v) => p.version := v;
    }
  }

  class Paginator {
    var cursor: string
    var direction: Direction
    var backwardDirectionSet: bool
    var forwardDirectionSet: bool
    var limit: int
    var sortKey: string
    var sortOrder: string
    var filter: string
    var filterQuery: FilterQuery?
    ghost var tree: Option<Tree>
    var anyDuplicateSortKeys: bool
    var version: int

    ghost function View(): Settings
      reads this
    {
      Settings(cursor, direction, backwardDirectionSet, forwardDirectionSet, limit, sortKey, sortOrder,
               filter, tree, anyDuplicateSortKeys, version)
    }

    constructor ()
      ensures View() == INITIAL && filterQuery == null
    {
      cursor, direction := "", Forward;
      backwardDirectionSet, forwardDirectionSet := false, false;
      limit, sortKey, sortOrder, version := 0, "id", ASCENDING, 3;
      filter, filterQuery, tree := "", null, None;
      anyDuplicateSortKeys := false;
    }

    method ClassifySortKeys()
      modifies `anyDuplicateSortKeys
      ensures anyDuplicateSortKeys <==> old(anyDuplicateSortKeys) || !Distinct(Split(sortKey, ","))
    {
      var keys := Split(sortKey, ",");
      var uniqueSortKeys: set<string> := {};
      for i := 0 to |keys|
        invariant forall k :: k in uniqueSortKeys <==> exists j :: 0 <= j < i && keys[j] == k
        invariant anyDuplicateSortKeys <==> old(anyDuplicateSortKeys) || !Distinct(keys[..i])
      {
        assert Distinct(keys[..i + 1]) <==> Distinct(keys[..i]) && keys[i] !in uniqueSortKeys;
        if keys[i] in uniqueSortKeys {
          anyDuplicateSortKeys := true;
        }
        uniqueSortKeys := uniqueSortKeys + {keys[i]};
      }
      assert keys[..|keys|] == keys;
    }

    method ValidateCursor(c: string) returns (ok: bool)
      ensures ok == ValidCursor(c, direction)
    {
      hide Split;
      if c == CURSOR_BEGIN {
        return direction.Forward?;
      }
      if c == CURSOR_END {
        return direction.Backward?;
      }
      var uniqueKeys: set<string> := {};
      var pairs := Split(c, ",");
      for i := 0 to |pairs|
        invariant forall k :: 0 <= k < i ==> |Split(pairs[k], ":")| == 2
        invariant forall k :: k in uniqueKeys <==> exists j :: 0 <= j < i && Split(pairs[j], ":")[0] == k
        invariant forall j, k :: 0 <= j < k < i ==> Split(pairs[j], ":")[0] != Split(pairs[k], ":")[0]
      {
        var pair := Split(pairs[i], ":");
        if |pair| != 2 {
          return false;
        }
        if pair[0] in uniqueKeys {
          return false;
        }
        uniqueKeys := uniqueKeys + {pair[0]};
      }
      return true;
    }

    method Validate() returns (ok: bool)
      requires filterQuery != null <==> tree.Some?
      ensures ok == Validates(View())
    {
      if version != 2 && version != 3 { return false; }
      if limit <= 0 || limit > MAX_LIMIT { return false; }
      if sortOrder != ASCENDING && sortOrder != DESCENDING { return false; }
      if forwardDirectionSet == backwardDirectionSet { return false; }
      if sortKey == "" || anyDuplicateSortKeys { return false; }
      if filter != "" {
        if filterQuery == null { return false; }
      } else if filterQuery != null {
        return false;
      }
      ok := ValidateCursor(cursor);
    }

    method ToQuery() returns (q: QueryParams)
      requires version >= 0
      ensures q == PagerSpec.Query(View())
    {
      var start, end := None, None;
      if direction.Forward? { start := Some(cursor); } else { end := Some(cursor); }
      var limitText, filterText := None, None;
      if limit > 0 { limitText := Some(Itoa(limit)); }
      if filter != "" { filterText := Some(filter); }
      q := QueryParams(start, end, limitText, filterText, Some(sortKey), Some(sortOrder), Some(Itoa(version)));
    }

    method FillIn()
      requires !anyDuplicateSortKeys
      modifies `limit, `cursor, `direction, `forwardDirectionSet, `anyDuplicateSortKeys
      ensures View() == Defaults(old(View())).(duplicateKeys := !Distinct(Split(sortKey, ",")))
    {
      hide Split, Distinct;
      if limit == 0 {
        limit := DEFAULT_LIMIT;
      }
      if !backwardDirectionSet && !forwardDirectionSet {
        forwardDirectionSet := true;
        cursor := CURSOR_BEGIN;
      }
      direction := if forwardDirectionSet then Forward else Backward;
      ClassifySortKeys();
    }

    /** Leaves no tree when the filter does not parse. */
    method ParseFilter() returns (ghost nodes: set<FilterQuery>)
      requires tree == None && filterQuery == null
      modifies `filterQuery, `tree
      ensures tree == if filter == "" then None
                      else match FilterSpec.Parse(filter) case Parsed(t) => Some(t) case Rejected(_) => None
      ensures filterQuery != null <==> tree.Some?
      ensures tree.Some? ==> Represents(filterQuery, tree.value, nodes)
    {
      hide FilterSpec.Parse;
      nodes := {};
      if filter != "" {
        var error, root;
        error, root, nodes := CreateFilterQuery(filter);
        if error.None? {
          filterQuery, tree := root, Some(FilterSpec.Parse(filter).tree);
        }
      }
    }

    /** Moves in the direction of paging if there is a page there; everything else stays. */
    method AdvanceCursor(next: Option<string>, prev: Option<string>) returns (moved: bool)
      modifies `cursor
      ensures var target := if direction.Forward? then next else prev;
        moved == target.Some? && cursor == if moved then target.value else old(cursor)
    {
      if direction.Forward? {
        if next.Some? {
          cursor := next.value;
          return true;
        }
      } else if prev.Some? {
        cursor := prev.value;
        return true;
      }
      return false;
    }
  }

  /** What each of the options asks for now. */
  ghost function HeldBy(options: seq<PagerOption>): (held: map<PagerOption, Wish>)
    reads options
    ensures held.Keys == set o | o in options
  {
    map o | o in options :: o.Held()
  }

  ghost function WishesOf(options: seq<PagerOption>): seq<Wish>
    reads options
  {
    Turns(options, HeldBy(options)).wishes
  }

  /** Each option acts as it stands when its turn comes, whether or not it has had one before. */
  method ApplyAll(options: seq<PagerOption>, p: Paginator)
    requires p.View() == INITIAL && p.filterQuery == null
    modifies options, p
    ensures var round := Turns(options, old(HeldBy(options)));
      p.View() == MeetAll(INITIAL, round.wishes) && HeldBy(options) == round.held && p.filterQuery == null
  {
    hide Meet, MeetAll, Turns;
    ghost var held := HeldBy(options);
    MeetNone(INITIAL);
    NoTurns(held);
    assert options[..0] == [];
    for i := 0 to |options|
      invariant p.View() == MeetAll(INITIAL, Turns(options[..i], held).wishes) && p.filterQuery == null
      invariant HeldBy(options) == Turns(options[..i], held).held
    {
      assert options[..i + 1] == options[..i] + [options[i]];
      TurnsNext(options[..i], options[i], held);
      ghost var before := Turns(options[..i], held);
      MeetNext(INITIAL, before.wishes, before.held[options[i]]);
      options[i].Apply(p);
      assert HeldBy(options) == before.held[options[i] := options[i].Held()];
    }
    assert options[..|options|] == options;
  }

  /** Applies the options in order, fills in what is missing, and validates. The result is null when
      the filter does not parse or the settings are not valid. Either way the options hold what
      their turns have left in them. */
  method ApplyOptions(options: seq<PagerOption>) returns (p: Paginator?, ghost nodes: set<FilterQuery>)
    modifies options
    ensures HeldBy(options) == Turns(options, old(HeldBy(options))).held
    ensures match PagerSpec.ApplyOptions(old(WishesOf(options)))
      case None => p == null
      case Some(s) => p != null && fresh(p) && p.View() == s
                      && (s.filterQuery.Some? ==> Represents(p.filterQuery, s.filterQuery.value, nodes))
  {
    hide FilterSpec.Parse, Validates, Represents, Split, Distinct, HeldBy, Turns, MeetAll;
    p := new Paginator();
    MeetAllLeaves(INITIAL, WishesOf(options));
    ApplyAll(options, p);
    ghost var held := HeldBy(options);
    p.FillIn();
    nodes := p.ParseFilter();
    var ok := p.filter == "" || p.filterQuery != null;
    if ok {
      ok := p.Validate();
    }
    if !ok {
      p := null;
    }
  }

  lemma MoreWishes(options: seq<PagerOption>, o: PagerOption)
    requires o !in options
    ensures WishesOf(options + [o]) == WishesOf(options) + [o.Held()]
  {
    hide Turns, MeetAll;
    var held, more := HeldBy(options), HeldBy(options + [o]);
    TurnsOfOthers(options, held, more);
    TurnsOfOthers(options, more, held);
    TurnsNext(options, o, more);
  }

  /** Adds the option w if the parameter is there. */
  method AppendGiven(options0: seq<PagerOption>, o: Option<string>, w: Wish) returns (options: seq<PagerOption>)
    ensures options0 <= options && WishesOf(options) == WishesOf(options0) + Given(o, w)
    ensures forall i :: |options0| <= i < |options| ==> fresh(options[i])
  {
    hide WishesOf;
    options := options0;
    if o.Some? {
      var option := new PagerOption(w);
      MoreWishes(options, option);
      options := options + [option];
    }
  }

  /** The default options come first. */
  method NewPaginatorFromQuery(q: QueryParams, defaults: seq<PagerOption>)
    returns (p: Paginator?, ghost nodes: set<FilterQuery>)
    modifies defaults
    ensures match PagerSpec.NewPaginatorFromQuery(q, old(WishesOf(defaults)))
      case None => p == null
      case Some(s) => p != null && p.View() == s
                      && (s.filterQuery.Some? ==> Represents(p.filterQuery, s.filterQuery.value, nodes))
  {
    hide WishesOf, HeldBy, Turns, Given, Atoi, PagerSpec.ApplyOptions, Represents;
    nodes := {};
    ghost var base := WishesOf(defaults);
    var options := AppendGiven(defaults, q.startingAfter, StartingAfter(TextOf(q.startingAfter)));
    options := AppendGiven(options, q.endingBefore, EndingBefore(TextOf(q.endingBefore)));
    var limit := NumberOf(q.limit);
    if limit.None? {
      return null, nodes;
    }
    options := AppendGiven(options, q.limit, Limit(limit.value));
    options := AppendGiven(options, q.filter, Filter(TextOf(q.filter)));
    options := AppendGiven(options, q.sortKey, SortKey(TextOf(q.sortKey)));
    options := AppendGiven(options, q.sortOrder, SortOrder(TextOf(q.sortOrder)));
    var version := NumberOf(q.version);
    if version.None? {
      return null, nodes;
    }
    options := AppendGiven(options, q.version, RequestVersion(version.value));
    assert WishesOf(options) == base + Wishes(q).value;
    p, nodes := ApplyOptions(options);
  }
}
