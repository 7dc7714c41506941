/** Which keys the parser accepts: the arrows of a JSON path, counted where they stand. */
module FilterKeys {
  import opened Options
  import opened FilterText
  import opened FilterSpec
  import opened FilterRoundTrip
  import opened FilterParses

  const ARROW := "->"
  const DEEP_ARROW := "->>"

  /** At how many positions of s the text sep stands. */
  function Occurrences(s: string, sep: string): nat {
    if s == "" then 0 else Occurrences(s[1..], sep) + if sep <= s then 1 else 0
  }

  /** Every -> of the key, those of its ->> among them. */
  function Arrows(key: string): nat { Occurrences(key, ARROW) }

  function DeepArrows(key: string): nat { Occurrences(key, DEEP_ARROW) }

  /** A text that does not begin again within itself, so its occurrences never overlap. */
  predicate Sharp(sep: string) { sep != "" && sep[0] !in sep[1..] }

  /** Without the first character of sep there is no occurrence to pass. */
  lemma {:induction false} Passed(a: string, t: string, sep: string)
    requires sep != "" && sep[0] !in a
    ensures Occurrences(a + t, sep) == Occurrences(t, sep)
  {
    if a == "" {
      assert a + t == t;
    } else {
      assert (a + t)[1..] == a[1..] + t;
      assert !(sep <= a + t) by { assert (a + t)[0] == a[0]; }
      Passed(a[1..], t, sep);
    }
  }

  lemma OnePassed(sep: string, t: string)
    requires Sharp(sep)
    ensures Occurrences(sep + t, sep) == 1 + Occurrences(t, sep)
  {
    assert (sep + t)[1..] == sep[1..] + t;
    Passed(sep[1..], t, sep);
  }

  /** The search finds the first occurrence. */
  lemma {:induction false} FindCounts(s: string, sep: string, i: nat)
    requires Sharp(sep) && i <= |s|
    ensures match Find(s, sep, i)
      case None => Occurrences(s[i..], sep) == 0
      case Some(j) => Occurrences(s[i..], sep) == 1 + Occurrences(s[j + |sep|..], sep)
    decreases |s| - i
  {
    hide Occurrences;
    if i + |sep| > |s| {
      TooShort(s[i..], sep);
    } else if s[i..i + |sep|] == sep {
      assert s[i..] == sep + s[i + |sep|..];
      OnePassed(sep, s[i + |sep|..]);
    } else {
      NotHere(s, sep, i);
      FindCounts(s, sep, i + 1);
    }
  }

  lemma NotHere(s: string, sep: string, i: nat)
    requires sep != "" && i + |sep| <= |s| && s[i..i + |sep|] != sep
    ensures Occurrences(s[i..], sep) == Occurrences(s[i + 1..], sep)
  {
    assert s[i..][1..] == s[i + 1..];
    assert s[i..][..|sep|] == s[i..i + |sep|];
  }

  lemma {:induction false} TooShort(s: string, sep: string)
    requires |s| < |sep|
    ensures Occurrences(s, sep) == 0
  {
    if s != "" { TooShort(s[1..], sep); }
  }

  /** Splitting cuts at every occurrence. */
  lemma {:induction false} SplitCounts(s: string, sep: string)
    requires Sharp(sep)
    ensures |Split(s, sep)| == 1 + Occurrences(s, sep)
    decreases |s|
  {
    hide Split, Find, Occurrences;
    FindCounts(s, sep, 0);
    assert s[0..] == s;
    match Find(s, sep, 0)
    case None => Uncut(s, sep);
    case Some(i) =>
      CutOnce(s, sep, i);
      SplitCounts(s[i + |sep|..], sep);
  }

  lemma Uncut(s: string, sep: string)
    requires sep != "" && Find(s, sep, 0).None?
    ensures |Split(s, sep)| == 1
  {
    hide Find;
  }

  lemma CutOnce(s: string, sep: string, i: nat)
    requires sep != "" && Find(s, sep, 0) == Some(i)
    ensures |Split(s, sep)| == 1 + |Split(s[i + |sep|..], sep)|
  {
    hide Find;
    var rest := s[i + |sep|..];
    assert Split(s, sep) == [s[..i]] + Split(rest, sep);
  }

  /** A key is accepted if and only if it has at most one ->, or exactly one ->> whatever -> it has
      besides. */
  lemma KeyParsesIff(key: string)
    ensures ParseKey(key).Some? <==> Arrows(key) <= 1 || DeepArrows(key) == 1
  {
    hide Split;
    SplitCounts(key, ARROW);
    SplitCounts(key, DEEP_ARROW);
  }

  // ----- What an accepted key becomes -----

  predicate Stands(s: string, sep: string, i: nat) { i + |sep| <= |s| && s[i..i + |sep|] == sep }

  lemma {:induction false} CountsOne(s: string, sep: string, i: nat)
    requires sep != "" && Stands(s, sep, i)
    ensures Occurrences(s, sep) >= 1
    decreases |s|
  {
    if i == 0 {
      assert s[..|sep|] == sep;
    } else {
      assert s[1..][i - 1..i - 1 + |sep|] == s[i..i + |sep|];
      CountsOne(s[1..], sep, i - 1);
    }
  }

  lemma {:induction false} CountsTwo(s: string, sep: string, i: nat, j: nat)
    requires sep != "" && i < j && Stands(s, sep, i) && Stands(s, sep, j)
    ensures Occurrences(s, sep) >= 2
    decreases |s|
  {
    assert s[1..][j - 1..j - 1 + |sep|] == s[j..j + |sep|];
    if i == 0 {
      assert s[..|sep|] == sep;
      CountsOne(s[1..], sep, j - 1);
    } else {
      assert s[1..][i - 1..i - 1 + |sep|] == s[i..i + |sep|];
      CountsTwo(s[1..], sep, i - 1, j - 1);
    }
  }

  /** A text in which sep stands once is cut there. */
  lemma CutThere(a: string, sep: string, b: string)
    requires Sharp(sep) && Occurrences(a + sep + b, sep) == 1
    ensures Split(a + sep + b, sep) == [a, b]
  {
    var s := a + sep + b;
    SplitCounts(s, sep);
    var parts := Split(s, sep);
    hide Split, Occurrences;
    var p, q := parts[0], parts[1];
    assert s == p + sep + q;
    assert Stands(s, sep, |a|) && Stands(s, sep, |p|);
    if |p| < |a| { CountsTwo(s, sep, |p|, |a|); }
    if |a| < |p| { CountsTwo(s, sep, |a|, |p|); }
    assert a == s[..|a|] && b == s[|a| + |sep|..];
    assert p == s[..|p|] && q == s[|p| + |sep|..];
  }

  /** One ->>: the rest of the path is quoted. */
  lemma DeepKeyBecomes(a: string, b: string)
    requires DeepArrows(a + DEEP_ARROW + b) == 1
    ensures ParseKey(a + DEEP_ARROW + b) == Some(a + "->>'" + b + "'")
  {
    CutThere(a, DEEP_ARROW, b);
  }

  /** One ->, and no ->>: the rest of the path is quoted. */
  lemma ArrowKeyBecomes(a: string, b: string)
    requires Arrows(a + ARROW + b) == 1 && DeepArrows(a + ARROW + b) == 0
    ensures ParseKey(a + ARROW + b) == Some(a + "->'" + b + "'")
  {
    var key := a + ARROW + b;
    CutThere(a, ARROW, b);
    SplitCounts(key, DEEP_ARROW);
    hide Split, Occurrences;
  }

  /** A plain column name stays as it is. */
  lemma PlainKeyStays(key: string)
    requires Arrows(key) == 0
    ensures ParseKey(key) == Some(key)
  {
    SplitCounts(key, ARROW);
    SplitCounts(key, DEEP_ARROW);
    NoDeepWithout(key);
    hide Split, Occurrences;
  }

  /** Every ->> begins with a ->. */
  lemma {:induction false} NoDeepWithout(key: string)
    ensures DeepArrows(key) <= Arrows(key)
  {
    if key != "" {
      NoDeepWithout(key[1..]);
      assert DEEP_ARROW[..2] == ARROW;
    }
  }

  /** Every accepted key is one of these. */
  lemma KeyBecomes(key: string) returns (a: string, b: string)
    requires ParseKey(key).Some?
    ensures match (DeepArrows(key), Arrows(key))
      case (1, _) => key == a + DEEP_ARROW + b && ParseKey(key) == Some(a + "->>'" + b + "'")
      case (_, 1) => key == a + ARROW + b && ParseKey(key) == Some(a + "->'" + b + "'")
      case _ => Arrows(key) == 0 && ParseKey(key) == Some(key)
  {
    a, b := "", "";
    KeyParsesIff(key);
    SplitCounts(key, ARROW);
    SplitCounts(key, DEEP_ARROW);
    NoDeepWithout(key);
    hide Occurrences;
    if DeepArrows(key) == 1 {
      a, b := Split(key, DEEP_ARROW)[0], Split(key, DEEP_ARROW)[1];
      DeepKeyBecomes(a, b);
    } else if Arrows(key) == 1 {
      a, b := Split(key, ARROW)[0], Split(key, ARROW)[1];
      ArrowKeyBecomes(a, b);
    } else {
      PlainKeyStays(key);
    }
  }

  lemma CountArrows(a: string, b: string, c: string)
    requires '-' !in a && '-' !in b && '-' !in c && (b == "" || b[0] != '>')
    ensures var key := a + ARROW + b + DEEP_ARROW + c; Arrows(key) == 2 && DeepArrows(key) == 1
  {
    var key, tail := a + ARROW + b + DEEP_ARROW + c, b + (DEEP_ARROW + c);
    assert key == a + (ARROW + tail);
    assert c + "" == c && DEEP_ARROW + c == ARROW + (">" + c);
    CountDeep(tail);
    hide Occurrences;
    Passed(a, ARROW + tail, ARROW);
    OnePassed(ARROW, tail);
    Passed(b, DEEP_ARROW + c, ARROW);
    OnePassed(ARROW, ">" + c);
    Passed(">", c, ARROW);
    Passed(c, "", ARROW);
    Passed(a, ARROW + tail, DEEP_ARROW);
    Passed(b, DEEP_ARROW + c, DEEP_ARROW);
    OnePassed(DEEP_ARROW, c);
    Passed(c, "", DEEP_ARROW);
    NoneInNothing();
  }

  lemma NoneInNothing()
    ensures Occurrences("", ARROW) == 0 && Occurrences("", DEEP_ARROW) == 0
  {
  }

  /** An arrow that is not followed by another > is not a ->>. */
  lemma CountDeep(t: string)
    requires t == "" || t[0] != '>'
    ensures Occurrences(ARROW + t, DEEP_ARROW) == Occurrences(t, DEEP_ARROW)
  {
    var s := ARROW + t;
    assert s[1..] == ">" + t;
    assert t != "" ==> s[2] == t[0];
    assert !(DEEP_ARROW <= s) by { assert DEEP_ARROW[2] == '>'; }
    Passed(">", t, DEEP_ARROW);
  }

  /** The ordinary path to a text inside a JSON column: two arrows, accepted, its last step quoted. */
  lemma DeepPathParses(a: string, b: string, c: string)
    requires '-' !in a && '-' !in b && '-' !in c && (b == "" || b[0] != '>')
    ensures var key := a + ARROW + b + DEEP_ARROW + c;
      Arrows(key) == 2 && DeepArrows(key) == 1 && ParseKey(key) == Some(a + ARROW + b + DEEP_ARROW + "'" + c + "'")
  {
    var key := a + ARROW + b + DEEP_ARROW + c;
    CountArrows(a, b, c);
    DeepKeyBecomes(a + ARROW + b, c);
    assert a + ARROW + b + "->>'" + c + "'" == a + ARROW + b + DEEP_ARROW + "'" + c + "'";
  }

  /** So a filter on such a path makes the round trip. */
  lemma DeepPathRoundTrip(a: string, b: string, c: string, op: string, value: string)
    requires '-' !in a && '-' !in b && '-' !in c && (b == "" || b[0] != '>')
    requires var key := a + ARROW + b + DEEP_ARROW + c; KeyText(key) && Ascii(key)
    requires IsLeafOperator(op) && ValueOk(value) && Ascii(value)
    ensures var q := Leaf(a + ARROW + b + DEEP_ARROW + c, op, value);
      Parse(Render(q)) == Parsed(Built(q)) && Print(Built(q)) == Render(q)
  {
    DeepPathParses(a, b, c);
    hide Parse, ParseKey, IsLeafOperator, ValueOk, Render, Built, Print;
    RoundTrip(Leaf(a + ARROW + b + DEEP_ARROW + c, op, value));
  }

  /** The tree of a leaf on a one-arrow key: the operator over the quoted path and the value. */
  lemma ArrowLeafParses(a: string, b: string, op: string, value: string)
    requires Arrows(a + ARROW + b) == 1 && DeepArrows(a + ARROW + b) == 0
    requires KeyText(a + ARROW + b) && Ascii(a + ARROW + b) && IsLeafOperator(op) && ValueOk(value) && Ascii(value)
    ensures Parse("(" + ("'" + (a + ARROW + b) + "'," + op + ",'" + value + "'") + ")") ==
            Parsed(Node(Nested, Node(Op(op), Node(Text(a + "->'" + b + "'"), Nil, Nil), Node(Text(value), Nil, Nil)), Nil))
  {
    var key := a + ARROW + b;
    ArrowKeyBecomes(a, b);
    LeafRendered(key, op, value);
    hide Parse, ParseKey, Occurrences, IsLeafOperator, ValueOk, Render, LeafText, Print;
    RoundTrip(Leaf(key, op, value));
  }

  lemma LeafRendered(key: string, op: string, value: string)
    ensures Render(Leaf(key, op, value)) == "(" + ("'" + key + "'," + op + ",'" + value + "'") + ")"
  {
  }
}
