/** The scanner: all automata run in parallel over a buffer that grows by one rune at a time, and
    keeps the runes read past a match. */
module Scanner {
  import opened ScannerSpec

  /** i is -1 in the last frame. */
  datatype Frame = Frame(i: int, s: string, line: nat, column: nat)

  ghost function Part(input: string, o: nat, n: nat): (s: string)
    requires o + n <= |input|
    ensures |s| == n
  {
    input[o..o + n]
  }

  ghost function FrameOf(input: string, t: Token): Frame
    requires t.offset + t.n <= |input|
  {
    Frame(t.i, Part(input, t.offset, t.n), Line(Part(input, 0, t.offset)), Column(Part(input, 0, t.offset)))
  }

  ghost function FramesOf(input: string, ts: seq<Token>): (fs: seq<Frame>)
    requires Within(ts, 0, |input|)
    ensures |fs| == |ts|
  {
    if ts == [] then [] else [FrameOf(input, ts[0])] + FramesOf(input, ts[1..])
  }

  ghost function EndFrame(input: string, o: nat): Frame
    requires o <= |input|
  {
    Frame(-1, "", Line(Part(input, 0, o)), Column(Part(input, 0, o)))
  }

  /** The frames still to be sent from offset o on. */
  ghost function Remaining(family: seq<Dfa>, input: string, o: nat): seq<Frame>
    requires Family(family) && o <= |input|
  {
    FramesOf(input, Tokens(family, input, o)) + [EndFrame(input, Rest(family, input, o))]
  }

  // ----- One rune, all automata -----

  ghost function Move(family: seq<Dfa>, states: seq<State>, r: char): (next: seq<State>)
    requires Family(family) && Live(family, states)
    ensures Live(family, next)
  {
    if states == [] then []
    else
      var x := states[|states| - 1];
      var st := Transition(family[x.dfa], x.st, r);
      Move(family, states[..|states| - 1], r) + Kept(x.dfa, st)
  }

  lemma MoveKept(family: seq<Dfa>, states: seq<State>, i: nat, st: int, r: char)
    requires Family(family) && Live(family, states) && i < |family| && -1 <= st < |family[i].f|
    ensures Live(family, states + Kept(i, st))
    ensures Move(family, states + Kept(i, st), r) ==
            Move(family, states, r) + Kept(i, if st == -1 then -1 else Transition(family[i], st, r))
  {
    if st == -1 {
      assert states + [] == states;
    } else {
      assert (states + [State(i, st)])[..|states|] == states;
    }
  }

  lemma AfterSnoc(d: Dfa, s: string, r: char)
    requires WellFormed(d)
    ensures After(d, s + [r]) == if After(d, s) == -1 then -1 else Transition(d, After(d, s), r)
  {
    assert (s + [r])[..|s|] == s;
  }

  lemma {:induction false} MoveStates(family: seq<Dfa>, s: string, r: char, k: nat)
    requires Family(family) && k <= |family|
    ensures Move(family, States(family, s, k), r) == States(family, s + [r], k)
  {
    hide Transition, Live, After, WellFormed, Kept, States;
    if k == 0 {
      NoStates(family, s);
      NoStates(family, s + [r]);
    } else {
      StatesUnfold(family, s, k);
      StatesUnfold(family, s + [r], k);
      MoveStates(family, s, r, k - 1);
      AfterSnoc(family[k - 1], s, r);
      MoveKept(family, States(family, s, k - 1), k - 1, After(family[k - 1], s), r);
    }
  }

  ghost function StartStates(family: seq<Dfa>, k: nat): seq<State>
  {
    if k == 0 then [] else StartStates(family, k - 1) + [State(k - 1, 0)]
  }

  lemma {:induction false} StartsAlive(family: seq<Dfa>, k: nat)
    requires Family(family) && k <= |family|
    ensures StartStates(family, k) == States(family, "", k)
  {
    if k > 0 {
      StartsAlive(family, k - 1);
    }
  }

  lemma {:induction false} FrameAt(input: string, ts: seq<Token>, j: nat)
    requires Within(ts, 0, |input|) && j < |ts|
    ensures FramesOf(input, ts)[j] == FrameOf(input, ts[j])
  {
    if j > 0 {
      FrameAt(input, ts[1..], j - 1);
    }
  }

  /** The frame shows n runes of the input from offset o on, the line breaks before them, and how far
      the last of those is away. */
  ghost predicate Shows(f: Frame, input: string, o: nat, n: nat) {
    && o + n <= |input| && f.s == input[o..o + n] && f.line == |Breaks(input[..o])|
    && f.column <= o && '\n' !in input[o - f.column..o] && (f.column < o ==> input[o - f.column - 1] == '\n')
  }

  lemma PositionShown(input: string, o: nat, n: nat, i: int)
    requires o + n <= |input|
    ensures Shows(Frame(i, Part(input, o, n), Line(Part(input, 0, o)), Column(Part(input, 0, o))), input, o, n)
  {
    LineCounts(input[..o]);
    ColumnCounts(input[..o]);
    assert input[0..o] == input[..o];
    var c := Column(input[..o]);
    assert input[..o][o - c..] == input[o - c..o];
    hide Line, Column;
  }

  /** There is one frame for each token, which shows it, and one more at the end. */
  lemma FramesShow(family: seq<Dfa>, input: string)
    requires Family(family)
    ensures var fs, ts := Remaining(family, input, 0), Tokens(family, input, 0);
      && |fs| == |ts| + 1
      && (forall j :: 0 <= j < |ts| ==> fs[j].i == ts[j].i && Shows(fs[j], input, ts[j].offset, ts[j].n))
      && fs[|ts|].i == -1 && Shows(fs[|ts|], input, Rest(family, input, 0), 0)
  {
    hide Line, Column, Tokens, Rest, Shows, Part, Family;
    var fs, ts, e := Remaining(family, input, 0), Tokens(family, input, 0), Rest(family, input, 0);
    forall j | 0 <= j < |ts| ensures fs[j].i == ts[j].i && Shows(fs[j], input, ts[j].offset, ts[j].n) {
      FrameAt(input, ts, j);
      PositionShown(input, ts[j].offset, ts[j].n, ts[j].i);
    }
    PositionShown(input, e, 0, -1);
    assert Part(input, e, 0) == "";
  }

  // ----- Steps of Remaining -----

  lemma RemainingWaiting(family: seq<Dfa>, input: string, o: nat)
    requires Family(family) && o < |input| && Alive(family, input[o..]) != []
    ensures var m := Munch(family, input[o..]);
      if m.NoMatch? then Remaining(family, input, o) == [EndFrame(input, |input|)]
      else o + m.n <= |input|
           && Remaining(family, input, o) == [FrameOf(input, Token(o, m.i, m.n))] + [EndFrame(input, o)]
  {
    hide Munch, Alive, IsMunch, FrameOf, EndFrame;
    var m := Munch(family, input[o..]);
    MunchBounds(family, input[o..]);
    if m.Match? {
      var t := Token(o, m.i, m.n);
      assert Tokens(family, input, o) == [t] + [] == [t];
      OneFrame(input, t, []);
    }
  }

  lemma RemainingStuck(family: seq<Dfa>, input: string, o: nat)
    requires Family(family) && o < |input| && Alive(family, input[o..]) == []
    ensures var m := Munch(family, input[o..]);
      if m.NoMatch? then Remaining(family, input, o) == Remaining(family, input, o + 1)
      else 0 < m.n && o + m.n <= |input|
           && Remaining(family, input, o) == [FrameOf(input, Token(o, m.i, m.n))] + Remaining(family, input, o + m.n)
  {
    hide Munch, Alive, IsMunch, FrameOf, EndFrame;
    var m := Munch(family, input[o..]);
    if m.Match? {
      var t, ts := Token(o, m.i, m.n), Tokens(family, input, o);
      assert ts[0] == t && ts == [t] + Tokens(family, input, o + m.n);
      OneFrame(input, t, Tokens(family, input, o + m.n));
    }
  }

  lemma OneFrame(input: string, t: Token, ts: seq<Token>)
    requires 0 < t.n && t.offset + t.n <= |input| && Within(ts, 0, |input|)
    ensures FramesOf(input, [t] + ts) == [FrameOf(input, t)] + FramesOf(input, ts)
  {
    assert ([t] + ts)[1..] == ts;
  }

  // ----- The scanner -----

  ghost predicate Tracks(m: Match, matchi: nat, matchn: int) {
    if m.NoMatch? then matchn == -1 else matchi == m.i && matchn == m.n
  }

  method Restart(family: seq<Dfa>) returns (state: seq<State>)
    requires Family(family)
    ensures state == Alive(family, "")
  {
    state := [];
    for i := 0 to |family|
      invariant state == StartStates(family, i)
    {
      state := state + [State(i, 0)];
    }
    StartsAlive(family, |family|);
  }

  /** Feeds one rune to every live automaton, in order, and notes a better match. */
  method StepAll(family: seq<Dfa>, state: seq<State>, r: char, n: nat, matchi0: nat, matchn0: int, ghost m: Match)
    returns (next: seq<State>, matchi: nat, matchn: int)
    requires Family(family) && Live(family, state) && n > 0 && Tracks(m, matchi0, matchn0)
    ensures next == Move(family, state, r) && Tracks(FirstAccept(family, next, n, m), matchi, matchn)
  {
    next, matchi, matchn := [], matchi0, matchn0;
    for j := 0 to |state|
      invariant next == Move(family, state[..j], r)
      invariant Tracks(FirstAccept(family, next, n, m), matchi, matchn)
    {
      var x := state[j];
      assert state[..j + 1][..j] == state[..j];
      var st := Transition(family[x.dfa], x.st, r);
      if st != -1 {
        ghost var before := next;
        next := next + [State(x.dfa, st)];
        assert next[..|next| - 1] == before;
        if family[x.dfa].acc[st] && (matchn < n || matchi > x.dfa) {
          matchi, matchn := x.dfa, n;
        }
      }
    }
    assert state[..|state|] == state;
  }

  function LineColumn(r: char, line: nat, column: nat): (nat, nat) {
    if r == '\n' then (line + 1, 0) else (line, column + 1)
  }

  lemma PositionStep(before: string, r: char)
    ensures (Line(before + [r]), Column(before + [r])) == LineColumn(r, Line(before), Column(before))
  {
    var t := before + [r];
    assert t[..|t| - 1] == before;
  }

  method Advance(text: string, line0: nat, column0: nat, ghost before: string) returns (line: nat, column: nat)
    requires line0 == Line(before) && column0 == Column(before)
    ensures line == Line(before + text) && column == Column(before + text)
  {
    hide Line, Column;
    line, column := line0, column0;
    ghost var seen := before;
    assert seen == before + text[..0];
    for j := 0 to |text|
      invariant seen == before + text[..j]
      invariant line == Line(seen) && column == Column(seen)
    {
      PositionStep(seen, text[j]);
      var p := LineColumn(text[j], line, column);
      line, column := p.0, p.1;
      seen := seen + [text[j]];
    }
    assert text[..|text|] == text;
  }

  lemma MunchStep(family: seq<Dfa>, s: string, r: char)
    requires Family(family)
    ensures Alive(family, s + [r]) == Move(family, Alive(family, s), r)
    ensures Munch(family, s + [r]) == FirstAccept(family, Move(family, Alive(family, s), r), |s| + 1, Munch(family, s))
  {
    MoveStates(family, s, r, |family|);
    assert (s + [r])[..|s|] == s;
  }

  lemma PartGrows(input: string, o: nat, n: nat)
    requires o + n < |input|
    ensures Part(input, o, n + 1) == Part(input, o, n) + [input[o + n]]
  {
  }

  lemma PartSplits(input: string, o: nat, k: nat, n: nat)
    requires k <= n && o + n <= |input|
    ensures Part(input, o, n)[..k] == Part(input, o, k) && Part(input, o, n)[k..] == Part(input, o + k, n - k)
    ensures Part(input, 0, o) + Part(input, o, k) == Part(input, 0, o + k)
    ensures k < n ==> Part(input, o, n)[k] == input[o + k]
  {
  }

  lemma Begin(family: seq<Dfa>, input: string, o: nat)
    requires Family(family) && o <= |input|
    ensures Line("") == 0 && Column("") == 0 && Munch(family, "") == NoMatch && Part(input, o, 0) == ""
  {
  }

  lemma AtEnd(family: seq<Dfa>, input: string)
    requires Family(family)
    ensures Remaining(family, input, |input|) == [EndFrame(input, |input|)]
  {
  }

  /** All automata have died after n runes. */
  lemma Stuck(family: seq<Dfa>, input: string, o: nat, n: nat)
    requires Family(family) && 0 < n && o + n <= |input| && Alive(family, Part(input, o, n)) == []
    ensures var m := Munch(family, Part(input, o, n));
      if m.NoMatch? then Remaining(family, input, o) == Remaining(family, input, o + 1)
      else 0 < m.n <= n
           && Remaining(family, input, o) == [FrameOf(input, Token(o, m.i, m.n))] + Remaining(family, input, o + m.n)
  {
    hide Remaining, Munch, Alive, FrameOf;
    assert input[o..][..n] == input[o..o + n];
    StuckDecides(family, input[o..], n);
    RemainingStuck(family, input, o);
    MunchIsMaximal(family, input[o..o + n]);
  }

  /** The input has ended and some automaton is alive. */
  lemma Waiting(family: seq<Dfa>, input: string, o: nat, n: nat)
    requires Family(family) && 0 < n && o + n == |input| && Alive(family, Part(input, o, n)) != []
    ensures var m := Munch(family, Part(input, o, n));
      if m.NoMatch? then Remaining(family, input, o) == [EndFrame(input, |input|)]
      else 0 < m.n <= n
           && Remaining(family, input, o) == [FrameOf(input, Token(o, m.i, m.n))] + [EndFrame(input, o)]
  {
    hide Remaining, Munch, Alive, FrameOf, EndFrame;
    assert input[o..o + n] == input[o..];
    RemainingWaiting(family, input, o);
    MunchIsMaximal(family, input[o..o + n]);
  }

  lemma AliveIsLive(family: seq<Dfa>, s: string)
    requires Family(family)
    ensures Live(family, Alive(family, s))
  {
  }

  lemma Appended(a: seq<Frame>, x: Frame, b: seq<Frame>)
    ensures a + ([x] + b) == a + [x] + b
  {
  }

  // ----- The scan loop -----

  /** The variables that the scan loop updates. */
  class ScanLoop {
    const family: seq<Dfa>
    const input: string
    var read: nat
    var buf: string
    var n: nat
    var state: seq<State>
    var matchi: nat
    var matchn: int
    var line: nat
    var column: nat
    var atEOF: bool
    var done: bool
    var frames: seq<Frame>
    ghost var o: nat

    /** The buffer holds what was read since offset o, and the position is that of o. */
    ghost predicate Buffered()
      reads this
    {
      && Family(family)
      && o + |buf| == read <= |input| && buf == Part(input, o, |buf|) && n <= |buf|
      && line == Line(Part(input, 0, o)) && column == Column(Part(input, 0, o))
    }

    ghost predicate Sends(more: seq<Frame>)
      requires Family(family)
      reads this
    {
      Remaining(family, input, 0) == frames + more
    }

    /** At the top of the loop. Once the end of the input is known, unmatched runes are only
        counted; no automaton runs on them again. */
    ghost predicate Looping()
      reads this
    {
      && Buffered()
      && if atEOF then n == 0 && matchn == -1 && read == |input| && Sends([EndFrame(input, |input|)])
         else && state == Alive(family, Part(input, o, n)) && (n > 0 ==> state != [])
              && Tracks(Munch(family, Part(input, o, n)), matchi, matchn)
              && Sends(Remaining(family, input, o))
    }

    /** No automaton is left. */
    ghost predicate Deciding()
      reads this
    {
      && Buffered() && state == []
      && if matchn == -1 then
           if atEOF then read == |input| && Sends([EndFrame(input, |input|)])
           else 0 < |buf| && Sends(Remaining(family, input, o + 1))
         else
           && 0 < matchn <= |buf|
           && Sends([FrameOf(input, Token(o, matchi, matchn))]
                    + if atEOF then [EndFrame(input, o)] else Remaining(family, input, o + matchn))
    }

    ghost predicate Finished()
      reads this
    {
      Family(family) && Sends([Frame(-1, "", line, column)])
    }

    constructor (family: seq<Dfa>, input: string)
      requires Family(family)
      ensures this.family == family && this.input == input && Looping() && !done
    {
      hide Line, Column, Munch, Alive, Part, Remaining, Family;
      this.family, this.input := family, input;
      read, buf, n := 0, "", 0;
      matchi, matchn := 0, -1;
      line, column := 0, 0;
      atEOF, done := false, false;
      frames := [];
      o := 0;
      state := [];
      new;
      state := Restart(family);
      Begin(family, input, 0);
    }

    /** Reads a rune if the buffer is used up, and steps every automaton or meets the end. */
    method Feed()
      requires Looping() && !done
      modifies `read, `buf, `n, `state, `matchi, `matchn, `atEOF
      ensures if state == [] then Deciding() else Looping() && !atEOF && n == old(n) + 1
      ensures old(atEOF) ==> atEOF
    {
      hide Munch, Alive, Family, Line, Column, FirstAccept, Move, Remaining, Part, FrameOf, EndFrame;
      if n == |buf| && !atEOF {
        if read == |input| {
          atEOF := true;
          if n == 0 {
            AtEnd(family, input);
            Begin(family, input, o);
          } else {
            Waiting(family, input, o, n);
          }
        } else {
          PartGrows(input, o, |buf|);
          buf := buf + [input[read]];
          read := read + 1;
        }
      }
      if !atEOF {
        PartGrows(input, o, n);
        PartSplits(input, o, n, |buf|);
        ghost var seen := Part(input, o, n);
        AliveIsLive(family, seen);
        MunchStep(family, seen, buf[n]);
        n := n + 1;
        state, matchi, matchn := StepAll(family, state, buf[n - 1], n, matchi, matchn, Munch(family, seen));
        if state == [] {
          Stuck(family, input, o, n);
        }
      } else {
        state := [];
      }
    }

    /** No match from offset o: its rune is skipped, but counted. */
    method Skip()
      requires Deciding() && matchn == -1 && 0 < |buf|
      modifies `buf, `n, `line, `column, `o
      ensures Buffered() && n == 0 && o == old(o) + 1
      ensures if atEOF then read == |input| && Sends([EndFrame(input, |input|)]) else Sends(Remaining(family, input, o))
    {
      hide Munch, Alive, Family, Line, Column, Remaining, Part, EndFrame;
      PartSplits(input, o, 1, |buf|);
      line, column := Advance(buf[..1], line, column, Part(input, 0, o));
      buf := buf[1..];
      o := o + 1;
      n := 0;
    }

    method Send()
      requires Deciding() && matchn != -1
      modifies `buf, `n, `matchn, `line, `column, `frames, `o, `done
      ensures matchn == -1 && done == atEOF
      ensures if atEOF then Finished() else Buffered() && n == 0 && o > old(o) && Sends(Remaining(family, input, o))
    {
      hide Munch, Alive, Family, Line, Column, Remaining, Part;
      PartSplits(input, o, matchn, |buf|);
      var text := buf[..matchn];
      buf := buf[matchn..];
      Appended(frames, Frame(matchi, text, line, column),
               if atEOF then [EndFrame(input, o)] else Remaining(family, input, o + matchn));
      frames := frames + [Frame(matchi, text, line, column)];
      matchn := -1;
      done := atEOF;
      if !done {
        line, column := Advance(text, line, column, Part(input, 0, o));
        o := o + |text|;
        n := 0;
      }
    }

    /** Sends the match or drops a rune, and starts every automaton again. */
    method Decide()
      requires Deciding() && !done
      modifies `buf, `n, `state, `matchn, `line, `column, `done, `frames, `o
      ensures if done then Finished() else Looping() && o > old(o)
    {
      hide Munch, Alive, Family, Line, Column, Remaining, Part, FrameOf;
      if matchn != -1 {
        Send();
      } else if |buf| == 0 {
        done := true;
      } else {
        Skip();
      }
      if !done {
        state := Restart(family);
        Begin(family, input, o);
      }
    }
  }

  /** The frames sent on the channel: one for each token of the specification, with the line and
      column where it starts, and the final one. */
  method Scan(family: seq<Dfa>, input: string) returns (frames: seq<Frame>)
    requires Family(family)
    ensures frames == Remaining(family, input, 0)
  {
    hide Remaining, Alive, Munch, Family, Line, Column, Part;
    var scan := new ScanLoop(family, input);
    while !scan.done
      invariant if scan.done then scan.Finished() else scan.Looping()
      decreases !scan.done, |input| - scan.o, !scan.atEOF, |input| - scan.o - scan.n
    {
      scan.Feed();
      if scan.state == [] {
        scan.Decide();
      }
    }
    frames := scan.frames + [Frame(-1, "", scan.line, scan.column)];
  }
}
