/** Maximal munch over a family of automata: what the scanner is meant to compute. */
module ScannerSpec {

  /** State 0 is initial. The transitions of a state are a table of runes; every other rune is the
      dead end, -1. There are no transitions at the start or the end of the input. */
  datatype Dfa = Dfa(acc: seq<bool>, f: seq<map<char, nat>>)

  ghost predicate WellFormed(d: Dfa) {
    && 0 < |d.acc| == |d.f|
    && forall st, r :: 0 <= st < |d.f| && r in d.f[st] ==> d.f[st][r] < |d.f|
  }

  function Transition(d: Dfa, st: nat, r: char): (next: int)
    requires st < |d.f|
    ensures -1 <= next
  {
    if r in d.f[st] then d.f[st][r] else -1
  }

  ghost predicate Family(family: seq<Dfa>) { forall i :: 0 <= i < |family| ==> WellFormed(family[i]) }

  ghost function After(d: Dfa, s: string): (st: int)
    requires WellFormed(d)
    ensures -1 <= st < |d.f|
  {
    if s == "" then 0
    else
      var st := After(d, s[..|s| - 1]);
      if st == -1 then -1 else Transition(d, st, s[|s| - 1])
  }

  ghost predicate Accepts(d: Dfa, s: string)
    requires WellFormed(d)
  {
    After(d, s) != -1 && d.acc[After(d, s)]
  }

  datatype State = State(dfa: nat, st: nat)

  ghost predicate Live(family: seq<Dfa>, states: seq<State>) {
    forall j :: 0 <= j < |states| ==> states[j].dfa < |family| && states[j].st < |family[states[j].dfa].f|
  }

  function Kept(i: nat, st: int): seq<State>
    requires -1 <= st
  {
    if st == -1 then [] else [State(i, st)]
  }

  /** The automata that have not died on s, in order, out of the first k. */
  ghost function States(family: seq<Dfa>, s: string, k: nat): (states: seq<State>)
    requires Family(family) && k <= |family|
    ensures Live(family, states)
  {
    if k == 0 then []
    else
      var st := After(family[k - 1], s);
      States(family, s, k - 1) + Kept(k - 1, st)
  }

  ghost function Alive(family: seq<Dfa>, s: string): (states: seq<State>)
    requires Family(family)
  {
    States(family, s, |family|)
  }

  lemma NoStates(family: seq<Dfa>, s: string)
    requires Family(family)
    ensures States(family, s, 0) == []
  {
  }

  lemma StatesUnfold(family: seq<Dfa>, s: string, k: nat)
    requires Family(family) && 0 < k <= |family|
    ensures States(family, s, k) == States(family, s, k - 1) + Kept(k - 1, After(family[k - 1], s))
  {
  }

  lemma {:induction false} NoneAlive(family: seq<Dfa>, s: string, k: nat)
    requires Family(family) && k <= |family|
    ensures States(family, s, k) == [] <==> forall i :: 0 <= i < k ==> After(family[i], s) == -1
  {
    hide After, WellFormed, Live, States;
    if k == 0 {
      NoStates(family, s);
    } else {
      NoneAlive(family, s, k - 1);
      StatesUnfold(family, s, k);
    }
  }

  // ----- The longest match -----

  datatype Match = NoMatch | Match(i: nat, n: nat)

  ghost predicate AcceptedAt(family: seq<Dfa>, s: string, i: nat, n: nat)
    requires Family(family)
  {
    i < |family| && 0 < n <= |s| && Accepts(family[i], s[..n])
  }

  /** m is the longest non-empty prefix of s that any automaton accepts, with the lowest index of
      those that accept it. */
  ghost predicate IsMunch(family: seq<Dfa>, s: string, m: Match)
    requires Family(family)
  {
    match m
    case NoMatch => forall i: nat, n: nat :: !AcceptedAt(family, s, i, n)
    case Match(bi, bn) =>
      && AcceptedAt(family, s, bi, bn)
      && forall i: nat, n: nat :: AcceptedAt(family, s, i, n) ==> n < bn || (n == bn && bi <= i)
  }

  lemma MunchUnique(family: seq<Dfa>, s: string, a: Match, b: Match)
    requires Family(family) && IsMunch(family, s, a) && IsMunch(family, s, b)
    ensures a == b
  {
  }

  /** The first of the states that accepts beats any shorter match. */
  ghost function FirstAccept(family: seq<Dfa>, states: seq<State>, n: nat, m: Match): Match
    requires Family(family) && Live(family, states)
  {
    if states == [] then m
    else
      var before := FirstAccept(family, states[..|states| - 1], n, m);
      var x := states[|states| - 1];
      if family[x.dfa].acc[x.st] && (before.NoMatch? || before.n < n || x.dfa < before.i) then Match(x.dfa, n) else before
  }

  ghost function Munch(family: seq<Dfa>, s: string): Match
    requires Family(family)
  {
    if s == "" then NoMatch
    else FirstAccept(family, Alive(family, s), |s|, Munch(family, s[..|s| - 1]))
  }

  lemma FirstAcceptStep(family: seq<Dfa>, s: string, k: nat, m: Match)
    requires Family(family) && 0 < k <= |family|
    ensures var before := FirstAccept(family, States(family, s, k - 1), |s|, m);
      FirstAccept(family, States(family, s, k), |s|, m) ==
      if Accepts(family[k - 1], s) && (before.NoMatch? || before.n < |s| || k - 1 < before.i) then Match(k - 1, |s|)
      else before
  {
    hide After, WellFormed;
    var states, before := States(family, s, k), States(family, s, k - 1);
    if After(family[k - 1], s) != -1 {
      assert states == before + [State(k - 1, After(family[k - 1], s))];
      assert states[..|states| - 1] == before;
    } else {
      assert states == before + [] == before;
    }
  }

  /** Among the first k automata, the lowest that accepts all of s is found if there is one. */
  lemma {:induction false} FirstAcceptIsFirst(family: seq<Dfa>, s: string, k: nat, m: Match)
    requires Family(family) && k <= |family| && (m.Match? ==> m.n < |s|)
    ensures var r := FirstAccept(family, States(family, s, k), |s|, m);
      if exists i: nat :: i < k && Accepts(family[i], s)
      then r.Match? && r.n == |s| && r.i < k && Accepts(family[r.i], s)
           && forall i: nat :: i < k && Accepts(family[i], s) ==> r.i <= i
      else r == m
  {
    hide States, Accepts, WellFormed, Live;
    if k > 0 {
      FirstAcceptIsFirst(family, s, k - 1, m);
      FirstAcceptStep(family, s, k, m);
    } else {
      NoStates(family, s);
    }
  }

  lemma AcceptedPrefix(family: seq<Dfa>, s: string, i: nat, n: nat)
    requires Family(family) && s != ""
    ensures AcceptedAt(family, s, i, n) <==>
              if n == |s| then i < |family| && Accepts(family[i], s) else AcceptedAt(family, s[..|s| - 1], i, n)
  {
    assert s[..|s|] == s;
    if n < |s| {
      assert s[..|s| - 1][..n] == s[..n];
    }
  }

  /** What the scanner accumulates rune by rune is the maximal munch. */
  lemma {:induction false} MunchIsMaximal(family: seq<Dfa>, s: string)
    requires Family(family)
    ensures IsMunch(family, s, Munch(family, s))
  {
    if s != "" {
      hide Accepts, States, FirstAccept, AcceptedAt;
      var t := s[..|s| - 1];
      MunchIsMaximal(family, t);
      MunchInside(family, t);
      FirstAcceptIsFirst(family, s, |family|, Munch(family, t));
      forall i: nat, n: nat
        ensures AcceptedAt(family, s, i, n) <==>
                  if n == |s| then i < |family| && Accepts(family[i], s) else AcceptedAt(family, t, i, n)
      {
        AcceptedPrefix(family, s, i, n);
      }
    } else {
      assert forall i: nat, n: nat :: !AcceptedAt(family, s, i, n);
    }
  }

  lemma MunchInside(family: seq<Dfa>, s: string)
    requires Family(family) && IsMunch(family, s, Munch(family, s))
    ensures forall i: nat, n: nat :: AcceptedAt(family, s, i, n) ==> n <= |s|
    ensures Munch(family, s).Match? ==> Munch(family, s).n <= |s|
  {
  }

  lemma MunchBounds(family: seq<Dfa>, s: string)
    requires Family(family)
    ensures var m := Munch(family, s); m.Match? ==> m.i < |family| && 0 < m.n <= |s|
  {
    MunchIsMaximal(family, s);
  }

  lemma {:induction false} DeadStaysDead(d: Dfa, s: string, n: nat)
    requires WellFormed(d) && n <= |s| && After(d, s[..n]) == -1
    ensures After(d, s) == -1
    decreases |s|
  {
    if n < |s| {
      assert s[..|s| - 1][..n] == s[..n];
      DeadStaysDead(d, s[..|s| - 1], n);
    } else {
      assert s[..n] == s;
    }
  }

  /** Once every automaton is dead, no further rune changes the longest match. */
  lemma StuckDecides(family: seq<Dfa>, s: string, n: nat)
    requires Family(family) && n <= |s| && Alive(family, s[..n]) == []
    ensures Munch(family, s) == Munch(family, s[..n]) && Alive(family, s) == []
  {
    hide Munch, States, After, WellFormed;
    MunchIsMaximal(family, s);
    MunchIsMaximal(family, s[..n]);
    NoneAlive(family, s[..n], |family|);
    forall i: nat, k: nat | i < |family| && n <= k <= |s| ensures After(family[i], s[..k]) == -1 {
      assert s[..k][..n] == s[..n];
      DeadStaysDead(family[i], s[..k], n);
    }
    assert s[..|s|] == s;
    NoneAlive(family, s, |family|);
    forall i: nat, k: nat ensures AcceptedAt(family, s, i, k) <==> AcceptedAt(family, s[..n], i, k) {
      assert k <= n ==> s[..n][..k] == s[..k];
    }
    MunchUnique(family, s, Munch(family, s), Munch(family, s[..n]));
  }

  // ----- Positions -----

  function Line(s: string): nat {
    if s == "" then 0 else Line(s[..|s| - 1]) + if s[|s| - 1] == '\n' then 1 else 0
  }

  /** Runes since the last line break. */
  function Column(s: string): nat {
    if s == "" || s[|s| - 1] == '\n' then 0 else Column(s[..|s| - 1]) + 1
  }

  lemma {:induction false} ColumnCounts(s: string)
    ensures var c := Column(s);
      c <= |s| && (forall k :: |s| - c <= k < |s| ==> s[k] != '\n') && (c < |s| ==> s[|s| - c - 1] == '\n')
  {
    if s != "" && s[|s| - 1] != '\n' {
      var t := s[..|s| - 1];
      ColumnCounts(t);
      assert forall k :: 0 <= k < |t| ==> s[k] == t[k];
    }
  }

  ghost function Breaks(s: string): set<nat> {
    set k: nat | k < |s| && s[k] == '\n'
  }

  /** A line number is the number of line breaks before. */
  lemma {:induction false} LineCounts(s: string)
    ensures Line(s) == |Breaks(s)|
  {
    if s != "" {
      var n := |s| - 1;
      var t := s[..n];
      LineCounts(t);
      assert Breaks(s) == Breaks(t) + if s[n] == '\n' then {n} else {};
    }
  }

  // ----- Tokens -----

  datatype Token = Token(offset: nat, i: nat, n: nat)

  /** Tokens lie between offset o and the end of the input. */
  ghost predicate Within(ts: seq<Token>, o: nat, length: nat) {
    forall j :: 0 <= j < |ts| ==> o <= ts[j].offset && 0 < ts[j].n && ts[j].offset + ts[j].n <= length
  }

  lemma WithinFront(t: Token, ts: seq<Token>, o: nat, length: nat)
    requires o <= t.offset && 0 < t.n && t.offset + t.n <= length && Within(ts, t.offset + t.n, length)
    ensures Within([t] + ts, o, length)
  {
  }

  lemma WithinWider(ts: seq<Token>, o: nat, p: nat, length: nat)
    requires o <= p && Within(ts, p, length)
    ensures Within(ts, o, length)
  {
  }

  /** The tokens from offset o on. Scanning stops for good at the first offset from which some
      automaton is still alive at the end of the input. */
  ghost function Tokens(family: seq<Dfa>, input: string, o: nat): (ts: seq<Token>)
    requires Family(family) && o <= |input|
    ensures Within(ts, o, |input|)
    decreases |input| - o
  {
    if o == |input| then []
    else
      hide Munch, Alive, Family, Within;
      var m, waiting := Munch(family, input[o..]), Alive(family, input[o..]) != [];
      MunchBounds(family, input[o..]);
      if m.NoMatch? then
        if waiting then (NoneWithin(o, |input|); [])
        else
          var ts := Tokens(family, input, o + 1);
          WithinWider(ts, o, o + 1, |input|);
          ts
      else
        var t := Token(o, m.i, m.n);
        if waiting then (NoneWithin(o + m.n, |input|); WithinFront(t, [], o, |input|); assert [t] == [t] + []; [t])
        else
          var ts := Tokens(family, input, o + m.n);
          WithinFront(t, ts, o, |input|);
          [t] + ts
  }

  lemma NoneWithin(o: nat, length: nat)
    ensures Within([], o, length)
  {
  }

  /** Where the scanner stands when it gives up: the start of the last token if it met the end of
      the input inside or right after that token, and the end of the input otherwise. */
  ghost function Rest(family: seq<Dfa>, input: string, o: nat): (e: nat)
    requires Family(family) && o <= |input|
    ensures o <= e <= |input|
    decreases |input| - o
  {
    if o == |input| then o
    else
      hide Munch, Alive, Family;
      var rest := input[o..];
      MunchBounds(family, rest);
      match Munch(family, rest)
      case NoMatch => if Alive(family, rest) != [] then |input| else Rest(family, input, o + 1)
      case Match(i, n) => if Alive(family, rest) != [] then o else Rest(family, input, o + n)
  }

  ghost predicate AllMunches(family: seq<Dfa>, input: string, ts: seq<Token>)
    requires Family(family) && Within(ts, 0, |input|)
  {
    forall j :: 0 <= j < |ts| ==> IsMunch(family, input[ts[j].offset..], Match(ts[j].i, ts[j].n))
  }

  lemma MunchFront(family: seq<Dfa>, input: string, t: Token, ts: seq<Token>)
    requires Family(family) && Within(ts, 0, |input|) && AllMunches(family, input, ts)
    requires Within([t] + ts, 0, |input|) && t.offset <= |input|
    requires IsMunch(family, input[t.offset..], Match(t.i, t.n))
    ensures AllMunches(family, input, [t] + ts)
  {
    hide IsMunch, Family;
  }

  /** Every token is the maximal munch of what follows its offset. */
  lemma {:induction false} TokensAreMunches(family: seq<Dfa>, input: string, o: nat)
    requires Family(family) && o <= |input|
    ensures Within(Tokens(family, input, o), 0, |input|) && AllMunches(family, input, Tokens(family, input, o))
    decreases |input| - o
  {
    hide IsMunch, Munch, Alive, Family;
    if o < |input| {
      var m := Munch(family, input[o..]);
      MunchIsMaximal(family, input[o..]);
      MunchBounds(family, input[o..]);
      if Alive(family, input[o..]) == [] {
        var next := o + if m.NoMatch? then 1 else m.n;
        TokensAreMunches(family, input, next);
        if m.Match? {
          MunchFront(family, input, Token(o, m.i, m.n), Tokens(family, input, next));
        }
      } else if m.Match? {
        var t := Token(o, m.i, m.n);
        assert [t] == [t] + [];
        MunchFront(family, input, t, []);
      }
    }
  }

  // ----- What is passed over -----

  ghost predicate Covers(ts: seq<Token>, p: nat) {
    exists j :: 0 <= j < |ts| && ts[j].offset <= p < ts[j].offset + ts[j].n
  }

  /** Some automaton still waits for more when the input that begins between o and p ends. */
  ghost predicate WaitsBefore(family: seq<Dfa>, input: string, o: nat, p: nat)
    requires Family(family)
  {
    exists q :: o <= q <= p && q <= |input| && Alive(family, input[q..]) != []
  }

  lemma CoversMore(t: Token, ts: seq<Token>, p: nat)
    requires !Covers([t] + ts, p)
    ensures !Covers(ts, p) && !(t.offset <= p < t.offset + t.n)
  {
    assert ([t] + ts)[0] == t;
    assert forall j :: 0 <= j < |ts| ==> ts[j] == ([t] + ts)[j + 1];
  }

  /** A rune that is in no token is passed over because nothing matches there, unless the scanner has
      given up before it with some automaton waiting. */
  lemma {:induction false} GapsMatchNothing(family: seq<Dfa>, input: string, o: nat, p: nat)
    requires Family(family) && o <= p < |input| && !Covers(Tokens(family, input, o), p)
    ensures WaitsBefore(family, input, o, p) || Munch(family, input[p..]).NoMatch?
    decreases |input| - o
  {
    hide Munch, Alive, Family, Covers;
    var m := Munch(family, input[o..]);
    MunchBounds(family, input[o..]);
    if Alive(family, input[o..]) == [] {
      var next := o + if m.NoMatch? then 1 else m.n;
      if m.Match? { CoversMore(Token(o, m.i, m.n), Tokens(family, input, next), p); }
      if next <= p { GapsMatchNothing(family, input, next, p); }
    }
  }

  /** One step of the scanner that does not meet the end of the input. */
  lemma OneStep(family: seq<Dfa>, input: string, o: nat) returns (next: nat, ts: seq<Token>)
    requires Family(family) && o < |input| && Alive(family, input[o..]) == []
    ensures o < next <= |input| && Tokens(family, input, o) == ts + Tokens(family, input, next)
    ensures Rest(family, input, o) == Rest(family, input, next)
    ensures |ts| <= 1 && (ts != [] ==> ts[0].offset == o)
  {
    hide Munch, Alive, Family, Within;
    var m := Munch(family, input[o..]);
    MunchBounds(family, input[o..]);
    if m.NoMatch? {
      next, ts := o + 1, [];
      assert [] + Tokens(family, input, next) == Tokens(family, input, next);
    } else {
      next, ts := o + m.n, [Token(o, m.i, m.n)];
    }
  }

  lemma GivesUp(family: seq<Dfa>, input: string, o: nat)
    requires Family(family) && o < |input| && Alive(family, input[o..]) != []
    ensures var ts := Tokens(family, input, o);
      if ts == [] then Rest(family, input, o) == |input|
      else |ts| == 1 && ts[0].offset == o == Rest(family, input, o)
  {
    hide Munch, Alive, Family, Within;
    MunchBounds(family, input[o..]);
  }

  /** Where the scanner stands in the end: at the start of its last token if the input has ended while
      some automaton was waiting for more of that token, and at the end of the input otherwise. */
  lemma {:induction false} RestExact(family: seq<Dfa>, input: string, o: nat)
    requires Family(family) && o <= |input|
    ensures var ts := Tokens(family, input, o);
      Rest(family, input, o) ==
      if ts != [] && Alive(family, input[ts[|ts| - 1].offset..]) != [] then ts[|ts| - 1].offset else |input|
    decreases |input| - o
  {
    hide Alive, Family, Tokens, Rest;
    if o == |input| {
      Done(family, input);
    } else if Alive(family, input[o..]) != [] {
      GivesUp(family, input, o);
    } else {
      var next, ts := OneStep(family, input, o);
      RestExact(family, input, next);
      var rest := Tokens(family, input, next);
      assert rest != [] ==> (ts + rest)[|ts + rest| - 1] == rest[|rest| - 1];
      assert rest == [] ==> ts + rest == ts;
    }
  }

  lemma Done(family: seq<Dfa>, input: string)
    requires Family(family)
    ensures Tokens(family, input, |input|) == [] && Rest(family, input, |input|) == |input|
  {
  }

  // ----- A family with a catch-all -----

  /** Some automaton accepts every single rune. */
  ghost predicate CatchAll(family: seq<Dfa>)
    requires Family(family)
  {
    exists i :: 0 <= i < |family| && forall r: char :: Accepts(family[i], [r])
  }

  ghost function Texts(input: string, ts: seq<Token>): string
    requires Within(ts, 0, |input|)
  {
    if ts == [] then "" else input[ts[0].offset..ts[0].offset + ts[0].n] + Texts(input, ts[1..])
  }

  ghost predicate Contiguous(ts: seq<Token>, o: nat) {
    && (ts != [] ==> ts[0].offset == o)
    && forall j :: 0 <= j < |ts| - 1 ==> ts[j + 1].offset == ts[j].offset + ts[j].n
  }

  lemma CatchAllMatches(family: seq<Dfa>, s: string)
    requires Family(family) && CatchAll(family) && s != ""
    ensures Munch(family, s).Match?
  {
    MunchIsMaximal(family, s);
    var i :| 0 <= i < |family| && forall r: char :: Accepts(family[i], [r]);
    assert s[..1] == [s[0]];
    assert AcceptedAt(family, s, i, 1);
  }

  /** The tokens lie one after the other from o on, and their texts are the input they lie on. */
  ghost predicate Tiles(input: string, ts: seq<Token>, o: nat) {
    && Within(ts, 0, |input|)
    && Contiguous(ts, o)
    && o + |Texts(input, ts)| <= |input| && Texts(input, ts) == input[o..o + |Texts(input, ts)|]
    && (ts != [] ==> ts[|ts| - 1].offset + ts[|ts| - 1].n == o + |Texts(input, ts)|)
  }

  lemma TileFront(input: string, ts: seq<Token>, o: nat)
    requires ts != [] && ts[0].offset == o && Within(ts, 0, |input|) && Tiles(input, ts[1..], o + ts[0].n)
    ensures Tiles(input, ts, o)
  {
    hide Contiguous, Within, Texts;
    var n, rest := ts[0].n, ts[1..];
    ContiguousFront(ts, o);
    TextsFront(input, ts);
    assert rest != [] ==> ts[|ts| - 1] == rest[|rest| - 1];
    NoTexts(input);
    SliceFront(input, o, n, |Texts(input, rest)|);
  }

  lemma NoTexts(input: string)
    ensures Within([], 0, |input|) && Texts(input, []) == ""
  {
  }

  lemma TextsFront(input: string, ts: seq<Token>)
    requires ts != [] && Within(ts, 0, |input|)
    ensures ts[0].offset + ts[0].n <= |input| && Within(ts[1..], 0, |input|)
    ensures Texts(input, ts) == input[ts[0].offset..ts[0].offset + ts[0].n] + Texts(input, ts[1..])
  {
  }

  lemma ContiguousFront(ts: seq<Token>, o: nat)
    requires ts != [] && ts[0].offset == o && Contiguous(ts[1..], o + ts[0].n)
    ensures Contiguous(ts, o)
  {
    var rest := ts[1..];
    assert forall j :: 0 <= j < |rest| ==> ts[j + 1] == rest[j];
    forall j | 0 <= j < |ts| - 1 ensures ts[j + 1].offset == ts[j].offset + ts[j].n {
      if j > 0 {
        assert rest[j - 1 + 1].offset == rest[j - 1].offset + rest[j - 1].n;
      }
    }
  }

  lemma SliceFront(s: string, o: nat, n: nat, k: nat)
    requires o + n + k <= |s|
    ensures s[o..o + n] + s[o + n..o + n + k] == s[o..o + n + k]
  {
  }

  /** With a catch-all the tokens tile a prefix of the input. Nothing is dropped unless some
      automaton was still waiting for more when the input ended. */
  lemma {:induction false} CatchAllTiles(family: seq<Dfa>, input: string, o: nat)
    requires Family(family) && CatchAll(family) && o <= |input|
    ensures var ts := Tokens(family, input, o);
      && Tiles(input, ts, o)
      && (ts == [] <==> o == |input|)
      && (ts != [] ==> Alive(family, input[ts[|ts| - 1].offset..]) != [])
    decreases |input| - o
  {
    hide IsMunch, Munch, Alive, CatchAll, Tiles;
    var ts := Tokens(family, input, o);
    if o < |input| {
      CatchAllMatches(family, input[o..]);
      var n := ts[0].n;
      if Alive(family, input[o..]) == [] {
        StuckIsLonger(family, input[o..]);
        CatchAllTiles(family, input, o + n);
        assert ts[1..] == Tokens(family, input, o + n);
      } else {
        NothingTiles(input, o + n);
        assert ts[1..] == [];
      }
      WithinWider(ts, 0, o, |input|);
      TileFront(input, ts, o);
    } else {
      NothingTiles(input, o);
    }
  }

  lemma NothingTiles(input: string, o: nat)
    requires o <= |input|
    ensures Tiles(input, [], o)
  {
  }

  /** The texts are the whole input if and only if the last token reaches the end of it. */
  lemma CoversInput(family: seq<Dfa>, input: string)
    requires Family(family) && CatchAll(family)
    ensures var ts := Tokens(family, input, 0);
      && Texts(input, ts) <= input
      && (Texts(input, ts) == input <==> ts == [] || ts[|ts| - 1].offset + ts[|ts| - 1].n == |input|)
  {
    CatchAllTiles(family, input, 0);
    assert input[0..|input|] == input;
  }

  ghost predicate Accepted(family: seq<Dfa>, s: string)
    requires Family(family)
  {
    exists i :: 0 <= i < |family| && Accepts(family[i], s)
  }

  /** Every non-empty text on which some automaton is still alive is accepted by some automaton. */
  ghost predicate NeverWaits(family: seq<Dfa>)
    requires Family(family)
  {
    forall s: string :: s != "" && Alive(family, s) != [] ==> Accepted(family, s)
  }

  /** A text is its own longest match exactly when some automaton accepts it. */
  lemma WholeMunch(family: seq<Dfa>, s: string)
    requires Family(family) && s != ""
    ensures (Munch(family, s).Match? && Munch(family, s).n == |s|) <==> Accepted(family, s)
  {
    hide Accepts, Munch, WellFormed;
    MunchIsMaximal(family, s);
    MunchBounds(family, s);
    assert s[..|s|] == s;
    if i :| 0 <= i < |family| && Accepts(family[i], s) {
      assert AcceptedAt(family, s, i, |s|);
    }
  }

  /** All of every input is tokenised if and only if the family never waits: every non-empty text on
      which some automaton is still alive is accepted by some automaton. */
  lemma CoversAllIff(family: seq<Dfa>)
    requires Family(family) && CatchAll(family)
    ensures (forall input: string :: Texts(input, Tokens(family, input, 0)) == input) <==> NeverWaits(family)
  {
    hide Texts, Tokens, Alive, Munch, CatchAll, Family, WellFormed, Accepted, IsMunch;
    if NeverWaits(family) {
      forall input: string ensures Texts(input, Tokens(family, input, 0)) == input {
        CoversIfNeverWaits(family, input);
      }
    } else {
      var s: string :| s != "" && Alive(family, s) != [] && !Accepted(family, s);
      DropsWhileWaiting(family, s);
    }
  }

  lemma CoversIfNeverWaits(family: seq<Dfa>, input: string)
    requires Family(family) && CatchAll(family) && NeverWaits(family)
    ensures Texts(input, Tokens(family, input, 0)) == input
  {
    hide Texts, Tokens, Alive, Munch, CatchAll, Family, WellFormed, Accepted;
    var ts := Tokens(family, input, 0);
    CatchAllTiles(family, input, 0);
    CoversInput(family, input);
    TokensAreMunches(family, input, 0);
    if ts != [] {
      var last := ts[|ts| - 1];
      var rest := input[last.offset..];
      WholeMunch(family, rest);
      MunchIsMaximal(family, rest);
      MunchUnique(family, rest, Munch(family, rest), Match(last.i, last.n));
    }
  }

  lemma DropsWhileWaiting(family: seq<Dfa>, s: string)
    requires Family(family) && CatchAll(family) && s != "" && Alive(family, s) != []
    requires !Accepted(family, s)
    ensures Texts(s, Tokens(family, s, 0)) != s
  {
    hide Alive, Munch, CatchAll, Family, WellFormed, Accepted, Texts;
    WholeMunch(family, s);
    CatchAllMatches(family, s);
    MunchBounds(family, s);
    CoversInput(family, s);
    assert s[0..] == s;
    assert Tokens(family, s, 0) == [Token(0, Munch(family, s).i, Munch(family, s).n)];
  }

  /** A match that reaches the end of the input leaves its automaton alive. */
  lemma StuckIsLonger(family: seq<Dfa>, s: string)
    requires Family(family) && Alive(family, s) == []
    ensures Munch(family, s).Match? ==> Munch(family, s).n < |s|
  {
    hide Munch, States, After, WellFormed;
    MunchIsMaximal(family, s);
    NoneAlive(family, s, |family|);
    assert s[..|s|] == s;
  }
}
