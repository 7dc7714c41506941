/** What the pager's settings mean for a caller: what cursors and numbers are accepted, and what a
    query asks for, parameter by parameter. */
module PagerExact {
  import opened Options
  import opened FilterText
  import opened FilterSpec
  import opened PagerText
  import opened PagerSpec

  // ----- Lists in text -----

  function Join(parts: seq<string>, sep: char): string
    requires parts != []
  {
    if |parts| == 1 then parts[0] else parts[0] + [sep] + Join(parts[1..], sep)
  }

  predicate Without(parts: seq<string>, sep: char) { forall i :: 0 <= i < |parts| ==> sep !in parts[i] }

  lemma {:induction false} FindFirst(s: string, sep: char, i: nat)
    requires i <= |s|
    ensures match Find(s, [sep], i)
      case None => sep !in s[i..]
      case Some(k) => sep !in s[i..k] && s[k] == sep
    decreases |s| - i
  {
    if i < |s| {
      assert s[i..i + 1] == [s[i]];
      if s[i] == sep {
        assert s[i..i] == "";
      } else {
        FindFirst(s, sep, i + 1);
        assert s[i..] == [s[i]] + s[i + 1..];
        var k := Find(s, [sep], i + 1);
        if k.Some? {
          assert s[i..k.value] == [s[i]] + s[i + 1..k.value];
        }
      }
    }
  }

  lemma Rejoined(s: string, sep: char, i: nat, rest: seq<string>)
    requires i < |s| && s[i] == sep && sep !in s[0..i] && rest != []
    requires Without(rest, sep) && Join(rest, sep) == s[i + 1..]
    ensures var parts := [s[..i]] + rest; Without(parts, sep) && Join(parts, sep) == s
  {
    var parts := [s[..i]] + rest;
    assert parts[1..] == rest && s[0..i] == s[..i];
    assert s == s[..i] + [sep] + s[i + 1..];
  }

  /** Splitting and joining are inverse to each other. */
  lemma {:induction false} SplitJoins(s: string, sep: char)
    ensures var parts := Split(s, [sep]); Without(parts, sep) && Join(parts, sep) == s
    decreases |s|
  {
    hide Find, Join, Without;
    FindFirst(s, sep, 0);
    match Find(s, [sep], 0)
    case None => Unsplit(s, sep);
    case Some(i) =>
      SplitJoins(s[i + 1..], sep);
      Rejoined(s, sep, i, Split(s[i + 1..], [sep]));
  }

  lemma Unsplit(s: string, sep: char)
    requires sep !in s[0..]
    ensures Without([s], sep) && Join([s], sep) == s
  {
    assert s[0..] == s;
  }

  lemma FirstStands(s: string, a: string, sep: char, k: nat)
    requires k < |s| && s[k] == sep && sep !in s[0..k]
    requires |a| < |s| && s[..|a|] == a && s[|a|] == sep && sep !in a
    ensures k == |a|
  {
    assert forall i :: 0 <= i < k ==> s[0..k][i] == s[i];
    assert forall i :: 0 <= i < |a| ==> a[i] == s[i];
  }

  lemma SplitFront(a: string, sep: char, tail: string)
    requires sep !in a
    ensures Split(a + [sep] + tail, [sep]) == [a] + Split(tail, [sep])
  {
    hide Find;
    var s := a + [sep] + tail;
    FindFirst(s, sep, 0);
    assert s[0..] == s && s[|a|] == sep && s[..|a|] == a;
    var k := Find(s, [sep], 0).value;
    FirstStands(s, a, sep, k);
    assert s[k + 1..] == tail;
  }

  lemma {:induction false} JoinSplits(parts: seq<string>, sep: char)
    requires parts != [] && Without(parts, sep)
    ensures Split(Join(parts, sep), [sep]) == parts
  {
    if |parts| == 1 {
      hide Find;
      FindFirst(parts[0], sep, 0);
      assert parts[0][0..] == parts[0];
    } else {
      hide Split;
      JoinSplits(parts[1..], sep);
      SplitFront(parts[0], sep, Join(parts[1..], sep));
      assert parts == [parts[0]] + parts[1..];
    }
  }

  // ----- Cursors -----

  function Pair(key: string, value: string): string { key + ":" + value }

  /** A cursor that lists values of distinct keys. */
  ghost predicate Lists(c: string, keys: seq<string>, values: seq<string>) {
    && keys != [] && |keys| == |values| && Distinct(keys)
    && (forall i :: 0 <= i < |keys| ==>
          ':' !in keys[i] && ',' !in keys[i] && ':' !in values[i] && ',' !in values[i])
    && c == Join(seq(|keys|, i requires 0 <= i < |keys| => Pair(keys[i], values[i])), ',')
  }

  lemma PairSplits(key: string, value: string)
    requires ':' !in key && ':' !in value
    ensures Split(Pair(key, value), ":") == [key, value]
  {
    hide Split;
    assert Join([key, value], ':') == Pair(key, value) by { assert [key, value][1..] == [value]; }
    JoinSplits([key, value], ':');
  }

  lemma ListsValid(c: string, keys: seq<string>, values: seq<string>, direction: Direction)
    requires c != CURSOR_BEGIN && c != CURSOR_END && Lists(c, keys, values)
    ensures ValidCursor(c, direction)
  {
    hide Split;
    var pairs := seq(|keys|, i requires 0 <= i < |keys| => Pair(keys[i], values[i]));
    JoinSplits(pairs, ',');
    forall i | 0 <= i < |keys| ensures Split(pairs[i], ":") == [keys[i], values[i]] {
      PairSplits(keys[i], values[i]);
    }
  }

  lemma ValidLists(c: string, direction: Direction) returns (keys: seq<string>, values: seq<string>)
    requires c != CURSOR_BEGIN && c != CURSOR_END && ValidCursor(c, direction)
    ensures Lists(c, keys, values)
  {
    hide Split;
    var parts := Split(c, ",");
    SplitJoins(c, ',');
    keys := seq(|parts|, i requires 0 <= i < |parts| => Split(parts[i], ":")[0]);
    values := seq(|parts|, i requires 0 <= i < |parts| => Split(parts[i], ":")[1]);
    forall i | 0 <= i < |parts|
      ensures parts[i] == Pair(keys[i], values[i])
      ensures ':' !in keys[i] && ',' !in keys[i] && ':' !in values[i] && ',' !in values[i]
    {
      var pair := Split(parts[i], ":");
      SplitJoins(parts[i], ':');
      assert pair == [keys[i], values[i]];
    }
    assert parts == seq(|keys|, i requires 0 <= i < |keys| => Pair(keys[i], values[i]));
  }

  /** The empty cursor is where paging forward begins, "end" where paging backward does; any other
      is accepted if and only if it lists values of distinct keys, in either direction. */
  lemma CursorValidIff(c: string, direction: Direction)
    ensures ValidCursor(c, direction) <==>
      if c == "" then direction == Forward
      else if c == "end" then direction == Backward
      else exists keys, values :: Lists(c, keys, values)
  {
    hide ValidCursor, Lists;
    if c != "" && c != "end" {
      if ValidCursor(c, direction) {
        var keys, values := ValidLists(c, direction);
      }
      forall keys, values | Lists(c, keys, values) ensures ValidCursor(c, direction) {
        ListsValid(c, keys, values, direction);
      }
    } else {
      Ends(c, direction);
    }
  }

  lemma Ends(c: string, direction: Direction)
    requires c == "" || c == "end"
    ensures ValidCursor(c, direction) <==> direction == if c == "" then Forward else Backward
  {
  }

  // ----- Numbers -----

  predicate Zeros(s: string) { forall i :: 0 <= i < |s| ==> s[i] == '0' }

  lemma {:induction false} DigitsOf(zeros: string, n: nat)
    requires Zeros(zeros)
    ensures Digits(zeros + Itoa(n)) == Some(n)
    decreases n, |zeros|
  {
    var s := zeros + Itoa(n);
    if n >= 10 {
      DigitsOf(zeros, n / 10);
      assert s[..|s| - 1] == zeros + Itoa(n / 10);
    } else if zeros != "" {
      var fewer := zeros[..|zeros| - 1];
      DigitsOf(fewer, 0);
      assert s[..|s| - 1] == zeros == fewer + Itoa(0);
    }
  }

  lemma OneDigit(m: nat, c: char)
    requires IsDigit(c)
    ensures Itoa((c - '0') as nat) == [c] && (m > 0 ==> Itoa(10 * m + (c - '0') as nat) == Itoa(m) + [c])
  {
  }

  lemma {:induction false} DigitsAre(s: string) returns (zeros: string)
    requires Digits(s).Some?
    ensures Zeros(zeros) && s == zeros + Itoa(Digits(s).value)
  {
    hide Itoa;
    var front, c := s[..|s| - 1], s[|s| - 1];
    assert s == front + [c];
    if front == "" {
      OneDigit(0, c);
      zeros := "";
    } else {
      zeros := DigitsAre(front);
      var m := Digits(front).value;
      OneDigit(m, c);
      OneDigit(0, '0');
      if m == 0 {
        zeros := zeros + "0";
      }
    }
  }

  /** The decimal number v with an optional sign, and zeros in front of it. */
  ghost predicate Writes(s: string, v: int) {
    exists sign, zeros, n: nat ::
      Zeros(zeros) && sign in ["", "+", "-"] && s == Written(sign, zeros, n) && v == Signed(sign, n)
  }

  function Signed(sign: string, n: int): int { if sign == "-" then -n else n }

  function Written(sign: string, zeros: string, n: nat): string { sign + (zeros + Itoa(n)) }

  lemma ReadsWritten(sign: string, zeros: string, n: nat)
    requires Zeros(zeros) && sign in ["", "+", "-"]
    ensures var v := Signed(sign, n);
      Atoi(Written(sign, zeros, n)) == if -MAX_INT64 - 1 <= v <= MAX_INT64 then Some(v) else None
  {
    var s, body := Written(sign, zeros, n), zeros + Itoa(n);
    DigitsOf(zeros, n);
    assert IsDigit(body[0]);
    if sign != "" {
      assert s[1..] == body;
    } else {
      assert s == body;
    }
  }

  /** A parameter is read as v if and only if it is v in decimal notation and fits 64 bits. */
  lemma AtoiIff(s: string, v: int)
    ensures Atoi(s) == Some(v) <==> -0x8000_0000_0000_0000 <= v <= 0x7FFF_FFFF_FFFF_FFFF && Writes(s, v)
  {
    if Writes(s, v) {
      var sign, zeros, n: nat :|
        Zeros(zeros) && sign in ["", "+", "-"] && s == Written(sign, zeros, n) && v == Signed(sign, n);
      ReadsWritten(sign, zeros, n);
    }
    if Atoi(s) == Some(v) {
      ReadIsWritten(s, v);
    }
  }

  lemma ReadIsWritten(s: string, v: int)
    requires Atoi(s) == Some(v)
    ensures Writes(s, v)
  {
    hide Itoa;
    var signed := s != "" && (s[0] == '-' || s[0] == '+');
    var sign, body := if signed then s[..1] else "", if signed then s[1..] else s;
    assert s == sign + body;
    assert sign in ["", "+", "-"] by { assert signed ==> sign == [s[0]]; }
    var zeros := DigitsAre(body);
    var n := Digits(body).value;
    assert s == Written(sign, zeros, n) && v == Signed(sign, n);
  }

  // ----- Queries -----

  lemma {:induction false} MeetBoth(s: Settings, a: seq<Wish>, b: seq<Wish>)
    ensures MeetAll(s, a + b) == MeetAll(MeetAll(s, a), b)
  {
    hide Meet;
    if b == [] {
      assert a + b == a;
    } else {
      var n := |b| - 1;
      assert a + b == a + b[..n] + [b[n]];
      MeetNext(s, a + b[..n], b[n]);
      MeetBoth(s, a, b[..n]);
    }
  }

  function Or<T>(o: Option<T>, otherwise: T): T { if o.None? then otherwise else o.value }

  /** What options that leave the settings s ask for together with those of a query: every parameter
      of the query takes the place of what was there, but a filter joins it. */
  ghost predicate Overrides(s: Settings, q: QueryParams, limit: Option<int>, version: Option<int>, r: Settings) {
    && r.limit == Or(limit, s.limit) && r.version == Or(version, s.version)
    && r.sortKey == Or(q.sortKey, s.sortKey) && r.sortOrder == Or(q.sortOrder, s.sortOrder)
    && r.forwardSet == (s.forwardSet || q.startingAfter.Some?)
    && r.backwardSet == (s.backwardSet || q.endingBefore.Some?)
    && r.cursor == Or(q.endingBefore, Or(q.startingAfter, s.cursor))
    && r.direction == (if q.endingBefore.Some? then Backward else if q.startingAfter.Some? then Forward else s.direction)
    && r.filter == (if Or(q.filter, "") == "" then s.filter
                    else if s.filter == "" then q.filter.value
                    else "(" + s.filter + ",AND," + q.filter.value + ")")
    && r.filterQuery == s.filterQuery && r.duplicateKeys == s.duplicateKeys
  }

  function Take(s: Settings, o: Option<string>, w: Wish): Settings { if o.Some? then Meet(s, w) else s }

  lemma TakeNext(s: Settings, ws: seq<Wish>, o: Option<string>, w: Wish)
    ensures MeetAll(s, ws + Given(o, w)) == Take(MeetAll(s, ws), o, w)
  {
    if o.None? {
      assert ws + [] == ws;
    } else {
      MeetNext(s, ws, w);
    }
  }

  lemma TakeAll(s: Settings, q: QueryParams)
    requires Wishes(q).Some?
    ensures MeetAll(s, Wishes(q).value) ==
            Take(Take(Take(Take(Take(Take(Take(s, q.startingAfter, StartingAfter(TextOf(q.startingAfter))),
                                          q.endingBefore, EndingBefore(TextOf(q.endingBefore))),
                                     q.limit, Limit(NumberOf(q.limit).value)),
                                q.filter, Filter(TextOf(q.filter))),
                           q.sortKey, SortKey(TextOf(q.sortKey))),
                      q.sortOrder, SortOrder(TextOf(q.sortOrder))),
                 q.version, RequestVersion(NumberOf(q.version).value))
  {
    hide NumberOf, MeetAll, Given, Take, TextOf;
    var a := [] + Given(q.startingAfter, StartingAfter(TextOf(q.startingAfter)));
    var b := a + Given(q.endingBefore, EndingBefore(TextOf(q.endingBefore)));
    var c := b + Given(q.limit, Limit(NumberOf(q.limit).value));
    var d := c + Given(q.filter, Filter(TextOf(q.filter)));
    var e := d + Given(q.sortKey, SortKey(TextOf(q.sortKey)));
    var f := e + Given(q.sortOrder, SortOrder(TextOf(q.sortOrder)));
    MeetNone(s);
    TakeNext(s, [], q.startingAfter, StartingAfter(TextOf(q.startingAfter)));
    TakeNext(s, a, q.endingBefore, EndingBefore(TextOf(q.endingBefore)));
    TakeNext(s, b, q.limit, Limit(NumberOf(q.limit).value));
    TakeNext(s, c, q.filter, Filter(TextOf(q.filter)));
    TakeNext(s, d, q.sortKey, SortKey(TextOf(q.sortKey)));
    TakeNext(s, e, q.sortOrder, SortOrder(TextOf(q.sortOrder)));
    TakeNext(s, f, q.version, RequestVersion(NumberOf(q.version).value));
    assert a == Given(q.startingAfter, StartingAfter(TextOf(q.startingAfter)));
    assert Wishes(q).value == f + Given(q.version, RequestVersion(NumberOf(q.version).value));
  }

  lemma Taken(s: Settings, o: Option<string>, text: string, n: int)
    ensures Take(s, o, StartingAfter(text)) ==
            s.(cursor := if o.Some? then text else s.cursor, direction := if o.Some? then Forward else s.direction,
               forwardSet := s.forwardSet || o.Some?)
    ensures Take(s, o, EndingBefore(text)) ==
            s.(cursor := if o.Some? then text else s.cursor, direction := if o.Some? then Backward else s.direction,
               backwardSet := s.backwardSet || o.Some?)
    ensures Take(s, o, Limit(n)) == s.(limit := if o.Some? then n else s.limit)
    ensures Take(s, o, RequestVersion(n)) == s.(version := if o.Some? then n else s.version)
    ensures Take(s, o, SortKey(text)) == s.(sortKey := if o.Some? then text else s.sortKey)
    ensures Take(s, o, SortOrder(text)) == s.(sortOrder := if o.Some? then text else s.sortOrder)
  {
  }

  lemma TakenFilter(s: Settings, o: Option<string>, text: string)
    ensures Take(s, o, Filter(text)) ==
            s.(filter := if o.None? || text == "" then s.filter else if s.filter == "" then text
                         else "(" + s.filter + ",AND," + text + ")")
  {
  }

  lemma QueryOverrides(s: Settings, q: QueryParams)
    requires Wishes(q).Some?
    ensures Overrides(s, q, if q.limit.None? then None else Atoi(q.limit.value),
                      if q.version.None? then None else Atoi(q.version.value), MeetAll(s, Wishes(q).value))
  {
    TakeAll(s, q);
    hide MeetAll, Given, Take, Atoi;
    var limit, version := NumberOf(q.limit).value, NumberOf(q.version).value;
    var a := Take(s, q.startingAfter, StartingAfter(TextOf(q.startingAfter)));
    var b := Take(a, q.endingBefore, EndingBefore(TextOf(q.endingBefore)));
    var c := Take(b, q.limit, Limit(limit));
    var d := Take(c, q.filter, Filter(TextOf(q.filter)));
    var e := Take(d, q.sortKey, SortKey(TextOf(q.sortKey)));
    var f := Take(e, q.sortOrder, SortOrder(TextOf(q.sortOrder)));
    Taken(s, q.startingAfter, TextOf(q.startingAfter), 0);
    Taken(a, q.endingBefore, TextOf(q.endingBefore), 0);
    Taken(b, q.limit, "", limit);
    TakenFilter(c, q.filter, TextOf(q.filter));
    Taken(d, q.sortKey, TextOf(q.sortKey), 0);
    Taken(e, q.sortOrder, TextOf(q.sortOrder), 0);
    Taken(f, q.version, "", version);
  }

  /** A query without defaults is accepted if and only if its numbers are numbers, it does not ask
      for both directions, and each parameter is one of those allowed. */
  ghost predicate Accepted(q: QueryParams) {
    && (q.limit.Some? ==> Atoi(q.limit.value).Some? && 0 <= Atoi(q.limit.value).value <= 1500)
    && (q.version.Some? ==> Atoi(q.version.value) == Some(2) || Atoi(q.version.value) == Some(3))
    && !(q.startingAfter.Some? && q.endingBefore.Some?)
    && (q.startingAfter.Some? ==> ValidCursor(q.startingAfter.value, Forward))
    && (q.endingBefore.Some? ==> ValidCursor(q.endingBefore.value, Backward))
    && (q.sortKey.Some? ==> q.sortKey.value != "" && Distinct(Split(q.sortKey.value, ",")))
    && (q.sortOrder.Some? ==> q.sortOrder.value in ["ascending", "descending"])
    && (Or(q.filter, "") != "" ==> Parse(q.filter.value).Parsed?)
  }

  /** The page a query asks for: what it does not ask for is 50 results forward from the beginning, by
      ascending id. */
  ghost predicate IsPage(q: QueryParams, d: Settings) {
    && (q.limit.Some? ==> Atoi(q.limit.value).Some?) && (q.version.Some? ==> Atoi(q.version.value).Some?)
    && d.limit == (if q.limit.None? || Atoi(q.limit.value) == Some(0) then 50 else Or(Atoi(q.limit.value), 50))
    && d.version == (if q.version.None? then 3 else Or(Atoi(q.version.value), 3))
    && d.sortKey == Or(q.sortKey, "id") && d.sortOrder == Or(q.sortOrder, "ascending") && d.filter == Or(q.filter, "")
    && d.backwardSet == q.endingBefore.Some? && d.forwardSet == (q.startingAfter.Some? || q.endingBefore.None?)
    && d.direction == (if d.forwardSet then Forward else Backward)
    && d.cursor == Or(q.endingBefore, Or(q.startingAfter, ""))
  }

  lemma OverridesPage(q: QueryParams, m: Settings)
    requires Wishes(q).Some?
    requires Overrides(INITIAL, q, if q.limit.None? then None else Atoi(q.limit.value),
                       if q.version.None? then None else Atoi(q.version.value), m)
    ensures IsPage(q, Defaults(m)) && m.filterQuery == None && !m.duplicateKeys
  {
    hide Atoi;
  }

  lemma PageFinishes(q: QueryParams, m: Settings)
    requires IsPage(q, Defaults(m)) && m.filterQuery == None && !m.duplicateKeys
    ensures match Finished(m)
      case None => !Accepted(q)
      case Some(s) => Accepted(q) && IsPage(q, s) && s.filterQuery == TreeOf(s.filter)
  {
    FinishedIff(m);
    OneKey();
    Ends("", Forward);
    hide Atoi, Split, Distinct, Parse, ValidCursor, Defaults, Finished;
  }

  ghost function TreeOf(filter: string): Option<Tree> {
    if filter == "" then None else match Parse(filter) case Parsed(t) => Some(t) case Rejected(_) => None
  }

  lemma FinishedIff(m: Settings)
    requires m.filterQuery == None && !m.duplicateKeys
    ensures var d := Defaults(m);
      var valid := (d.version == 2 || d.version == 3) && 0 < d.limit <= 1500 && d.sortOrder in ["ascending", "descending"]
        && d.forwardSet != d.backwardSet && d.sortKey != "" && Distinct(Split(d.sortKey, ","))
        && ValidCursor(d.cursor, d.direction) && (d.filter != "" ==> Parse(d.filter).Parsed?);
      Finished(m) == if valid then Some(d.(filterQuery := TreeOf(d.filter)))
                     else None
  {
    hide Split, Distinct, Parse, ValidCursor;
  }

  /** A query is accepted exactly when it may be, and then gives the page it asks for. */
  lemma QueryMeans(q: QueryParams)
    ensures match NewPaginatorFromQuery(q, [])
      case None => !Accepted(q)
      case Some(s) => Accepted(q) && IsPage(q, s) && s.filterQuery == TreeOf(s.filter)
  {
    hide Atoi, Parse, ValidCursor, MeetAll, Overrides, Finished, TreeOf, Defaults, IsPage;
    if Wishes(q).Some? {
      var ws := Wishes(q).value;
      assert [] + ws == ws;
      MeetAllLeaves(INITIAL, ws);
      QueryOverrides(INITIAL, q);
      OverridesPage(q, MeetAll(INITIAL, ws));
      PageFinishes(q, MeetAll(INITIAL, ws));
    }
  }

  lemma OneKey()
    ensures Distinct(Split("id", ","))
  {
    FindFirst("id", ',', 0);
  }
}
