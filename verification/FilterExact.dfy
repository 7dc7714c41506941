/** Exactly which filters of the grammar survive the trip through the parser. */
module FilterExact {
  import opened Options
  import opened FilterText
  import opened FilterSpec
  import opened FilterRoundTrip
  import opened FilterLeaf
  import opened FilterParses
  import opened FilterWeight

  // ----- The weight of a query's tree -----

  /** The tree of a query accounts for all of the query's bytes, and one closing parenthesis more. */
  lemma {:induction false} BuiltWeight(q: Query)
    requires Grammar(q)
    ensures Weight(Built(q)) == ByteLen(Render(q)) + 1
    decreases q, 1
  {
    hide ByteLen, IsLeafOperator, Weight;
    NodeWeight(Nested, Content(q), Nil);
    NilWeight();
    match q
    case Leaf(key, op, value) =>
      LeafTreeWeight(Rewritten(key), op, value);
      RewrittenUndone(key);
      LeafBytes(key, op, value);
    case Group(first, rest) =>
      BuiltWeight(first);
      ChainWeight(Built(first), rest);
      GroupBytes(Render(first), RenderRest(rest));
  }

  lemma NilWeight()
    ensures Weight(Nil) == 0
  {
  }

  lemma RewrittenUndone(key: string)
    requires '\'' !in key
    ensures DropQuotes(Rewritten(key)) == key
  {
    hide ParseKey;
    if ParseKey(key).Some? { ParseKeyUndone(key); }
  }

  lemma LeafBytes(key: string, op: string, value: string)
    ensures ByteLen("(" + LeafText(key, op, value) + ")") == ByteLen(key) + ByteLen(op) + ByteLen(value) + 8
  {
    AsciiBytes("(");
    AsciiBytes("'");
    AsciiBytes("',");
    AsciiBytes(",'");
    AsciiBytes(")");
    hide ByteLen;
    BytesConcat("'", key);
    BytesConcat("'" + key, "',");
    BytesConcat("'" + key + "',", op);
    BytesConcat("'" + key + "'," + op, ",'");
    BytesConcat("'" + key + "'," + op + ",'", value);
    BytesConcat("'" + key + "'," + op + ",'" + value, "'");
    BytesConcat("(", LeafText(key, op, value));
    BytesConcat("(" + LeafText(key, op, value), ")");
  }

  lemma GroupBytes(a: string, b: string)
    ensures ByteLen("(" + a + b + ")") == ByteLen(a) + ByteLen(b) + 2
  {
    AsciiBytes("(");
    AsciiBytes(")");
    hide ByteLen;
    BytesConcat("(", a);
    BytesConcat("(" + a, b);
    BytesConcat("(" + a + b, ")");
  }

  lemma MoreBytes(conj: string, next: string, rest: string)
    ensures ByteLen("," + conj + "," + next + rest) == ByteLen(conj) + 2 + ByteLen(next) + ByteLen(rest)
  {
    AsciiBytes(",");
    hide ByteLen;
    BytesConcat(",", conj);
    BytesConcat("," + conj, ",");
    BytesConcat("," + conj + ",", next);
    BytesConcat("," + conj + "," + next, rest);
  }

  lemma {:induction false} ChainWeight(t: Tree, r: Rest)
    requires GrammarRest(r)
    ensures Weight(Chain(t, r)) == Weight(t) + ByteLen(RenderRest(r))
    ensures Opened(t) ==> Opened(Chain(t, r))
    decreases r, 0
  {
    match r
    case End =>
    case More(conj, next, rest) =>
      assert !IsLeafOperator(conj);
      hide ByteLen, IsLeafOperator, Weight;
      var right := Chain(Built(next), rest);
      BuiltWeight(next);
      ChainWeight(Built(next), rest);
      NodeWeight(Op(conj), t, right);
      MoreBytes(conj, Render(next), RenderRest(rest));
  }

  // ----- Bytes and characters -----

  lemma {:induction false} AsciiFromBytes(q: Query)
    requires Grammar(q) && ByteLen(Render(q)) == |Render(q)|
    ensures AsciiQuery(q)
    decreases q, 1
  {
    hide ByteLen, IsLeafOperator, ValueOk;
    match q
    case Leaf(key, op, value) =>
      LeafBytes(key, op, value);
      AsciiBytes(key);
      AsciiBytes(value);
    case Group(first, rest) =>
      GroupBytes(Render(first), RenderRest(rest));
      AsciiFromBytes(first);
      AsciiRestFromBytes(rest);
  }

  lemma {:induction false} AsciiRestFromBytes(r: Rest)
    requires GrammarRest(r) && ByteLen(RenderRest(r)) == |RenderRest(r)|
    ensures AsciiRest(r)
    decreases r, 0
  {
    hide ByteLen, ValueOk;
    match r
    case End =>
    case More(conj, next, rest) =>
      MoreBytes(conj, Render(next), RenderRest(rest));
      AsciiFromBytes(next);
      AsciiRestFromBytes(rest);
  }

  // ----- A key that cannot be rewritten -----

  /** An ASCII query with a bad key is rejected there, wherever in it the key is. */
  lemma {:induction false} BadKeyRejects(chars: string, i: nat, c: Cursor, q: Query)
    requires Grammar(q) && AsciiQuery(q) && !KeysParse(q) && At(chars, i, Render(q))
    ensures Run(chars, i, c) == Bad(InvalidKey)
    decreases q, 1
  {
    hide At, Run, FindAncestor, ParseKey, IsLeafOperator, ValueOk;
    match q
    case Leaf(key, op, value) =>
      BadLeaf(chars, i, c, key, op, value);
    case Group(first, rest) =>
      var n := FilterSpec.AddChild(c, Nested);
      GroupOpens(chars, i, c, first, rest);
      if KeysParse(first) {
        QueryRuns(chars, i + 1, n, first);
        BadKeyInRest(chars, i + 1 + |Render(first)|, Built(first), Below(n), rest);
      } else {
        BadKeyRejects(chars, i + 1, n, first);
      }
  }

  lemma BadLeaf(chars: string, i: nat, c: Cursor, key: string, op: string, value: string)
    requires KeyText(key) && IsLeafOperator(op) && ValueOk(value) && ParseKey(key).None?
    requires At(chars, i, Render(Leaf(key, op, value)))
    ensures Run(chars, i, c) == Bad(InvalidKey)
  {
    hide ParseKey, IsLeafOperator, ValueOk, ScanLeaf;
    OpenRuns(chars, i, c, LeafText(key, op, value));
    LeafScans(chars, i + 1, key, op, value);
    assert TakeStep(chars, i + 1, FilterSpec.AddChild(c, Nested)) == LeafStep(chars, i + 1, FilterSpec.AddChild(c, Nested));
  }

  lemma {:induction false} BadKeyInRest(chars: string, i: nat, t: Tree, ctx: Ctx, r: Rest)
    requires t.Node? && !ctx.Top? && GrammarRest(r) && AsciiRest(r) && !RestKeysParse(r) && At(chars, i, RenderRest(r))
    ensures Run(chars, i, Place(t, ctx)) == Bad(InvalidKey)
    decreases r, 0
  {
    hide At, Run, FindAncestor, ParseKey, IsLeafOperator, ValueOk;
    match r
    case More(conj, next, rest) =>
      var token := "," + conj + ",";
      var c := RotateLeft(Place(t, ctx), Op(conj));
      MoreOpens(chars, i, conj, next, rest);
      ConjRuns(chars, i, Place(t, ctx), conj);
      if KeysParse(next) {
        QueryRuns(chars, i + |token|, c, next);
        BadKeyInRest(chars, i + |token| + |Render(next)|, Built(next), Below(c), rest);
      } else {
        BadKeyRejects(chars, i + |token|, c, next);
      }
  }

  // ----- The theorem -----

  /** For every filter of the grammar, over any characters: it parses to its own tree if and only if
      every key and value is ASCII and every key has at most one ->, or exactly one ->>. */
  lemma RoundTripIff(q: Query)
    requires Grammar(q)
    ensures Parse(Render(q)) == Parsed(Built(q)) <==> AsciiQuery(q) && KeysParse(q)
  {
    hide Parse, Weight, Built, Render, Grammar;
    if AsciiQuery(q) && KeysParse(q) {
      RoundTrip(q);
    } else if AsciiQuery(q) {
      BadKeyIsRejected(q);
    } else {
      BuiltWeight(q);
      if Parse(Render(q)) == Parsed(Built(q)) {
        ParsedFits(Render(q));
        AsciiFromBytes(q);
      }
    }
  }

  lemma BadKeyIsRejected(q: Query)
    requires Grammar(q) && AsciiQuery(q) && !KeysParse(q)
    ensures Parse(Render(q)) == Rejected(InvalidKey)
  {
    hide Run, Grammar, AsciiQuery, KeysParse;
    var s := Render(q);
    assert s[0..|s|] == s;
    BadKeyRejects(s, 0, ROOT, q);
    RenderStarts(q);
  }

  lemma RenderStarts(q: Query)
    ensures Render(q) != ""
  {
  }

  // ----- Accepted, and a clause short -----

  function DroppingFilter(v: string): string {
    "(" + ("(" + LeafText("a", "EQ", v) + ")" + ",AND,('b',EQ,'c')") + ")"
  }

  lemma DroppingText(v: string)
    ensures var s, n := DroppingFilter(v), |v| + 28;
      && |s| == n + 2 && s[n] == ')' && s[n + 1] == ')' && At(s, n, ")") && At(s, n + 1, ")")
      && At(s, 0, s) && At(s, 1, "(" + LeafText("a", "EQ", v) + ")" + ",AND,('b',EQ,'c')")
  {
    var leaf, clause := LeafText("a", "EQ", v), ",AND,('b',EQ,'c')";
    var body := "(" + leaf + ")" + clause;
    var s, front := DroppingFilter(v), "((" + leaf + ")" + ",AND,('b',EQ,'c'";
    assert s == front + "))";
    assert |leaf| == |v| + 9 && |front| == |v| + 28;
    assert s[0..|s|] == s;
    assert s == "(" + body + ")";
    assert s[1..1 + |body|] == body;
  }

  lemma GroupAround(c: Cursor, t: Tree)
    requires t.Node?
    ensures FindAncestor(Place(t, Below(FilterSpec.AddChild(c, Nested)))) == Place(Node(Nested, t, Nil), Below(c))
  {
  }

  /** Up to the closing parenthesis of the leaf: it is taken, and the index has passed the clause. */
  lemma DroppingLeaf(s: string, c: Cursor, v: string)
    requires c.value.Nested? && At(s, 2, LeafText("a", "EQ", v) + ")")
    requires ValueOk(v) && ByteLen(v) == |v| + 17
    ensures Run(s, 2, c) == Run(s, |v| + 28, Place(LeafTree("a", "EQ", v), Below(c)))
  {
    BytesOfShort();
    ShortKey();
    assert 2 + LeafWidth(LeafToken("a", "EQ", v)) == |v| + 28;
    hide Run, ValueOk, ParseKey, IsLeafOperator, ScanLeaf, LeafWidth, At, LeafText, ByteLen, KeyText;
    LeafScans(s, 2, "a", "EQ", v);
    LeafTaken(s, 2, c, LeafToken("a", "EQ", v), "a");
  }

  /** In a composite a value that is not ASCII can carry the index over the rest of the filter to the
      closing parentheses: the filter is accepted and its second clause is gone. */
  lemma ClauseDropped(v: string)
    requires ValueOk(v) && ByteLen(v) == |v| + 17
    ensures Parse(DroppingFilter(v)) == Parsed(Node(Nested, Node(Nested, LeafTree("a", "EQ", v), Nil), Nil))
  {
    DroppingText(v);
    hide Parse, Run, ValueOk, At, FindAncestor, LeafText, ByteLen;
    var s, i, leaf := DroppingFilter(v), |v| + 28, LeafText("a", "EQ", v);
    var n1 := FilterSpec.AddChild(ROOT, Nested);
    var n2 := FilterSpec.AddChild(n1, Nested);
    var t := LeafTree("a", "EQ", v);
    OpenRuns(s, 0, ROOT, "(" + leaf + ")" + ",AND,('b',EQ,'c')");
    AtSplit(s, 1, "(" + leaf + ")", ",AND,('b',EQ,'c')");
    OpenRuns(s, 1, n1, leaf);
    DroppingLeaf(s, n2, v);
    DroppingCloses(s, i, t);
    Finishes(s, Place(Node(Nested, Node(Nested, t, Nil), Nil), Below(ROOT)));
  }

  lemma DroppingCloses(s: string, i: nat, t: Tree)
    requires At(s, i, ")") && At(s, i + 1, ")") && t.Node?
    ensures var n1 := FilterSpec.AddChild(ROOT, Nested);
      Run(s, i, Place(t, Below(FilterSpec.AddChild(n1, Nested)))) ==
      Run(s, i + 2, Place(Node(Nested, Node(Nested, t, Nil), Nil), Below(ROOT)))
  {
    hide Run, At, FindAncestor;
    var n1 := FilterSpec.AddChild(ROOT, Nested);
    GroupAround(n1, t);
    CloseRuns(s, i, Place(t, Below(FilterSpec.AddChild(n1, Nested))));
    GroupAround(ROOT, Node(Nested, t, Nil));
    CloseRuns(s, i + 1, Place(Node(Nested, t, Nil), Below(n1)));
  }

  lemma BytesOfShort()
    ensures ByteLen("a") == 1 && ByteLen("EQ") == 2
  {
    AsciiBytes("a");
    AsciiBytes("EQ");
  }

  lemma ShortKey()
    ensures KeyText("a") && ParseKey("a") == Some("a") && IsLeafOperator("EQ")
  {
    assert Find("a", "->>", 0).None? && Find("a", "->", 0).None?;
  }

  lemma {:induction false} AccentBytes(s: string)
    requires forall k :: 0 <= k < |s| ==> s[k] == '\U{E9}'
    ensures ByteLen(s) == 2 * |s|
  {
    if s != "" { AccentBytes(s[1..]); }
  }

  /** Any run of accented letters is a value, and seventeen of them are such a value. */
  lemma AccentsDrop(v: string)
    requires |v| == 17 && forall k :: 0 <= k < |v| ==> v[k] == '\U{E9}'
    ensures Parse(DroppingFilter(v)) == Parsed(Node(Nested, Node(Nested, LeafTree("a", "EQ", v), Nil), Nil))
  {
    hide Parse, DroppingFilter, ByteLen;
    AccentBytes(v);
    EscapedValueOk(v);
    ClauseDropped(v);
  }
}
