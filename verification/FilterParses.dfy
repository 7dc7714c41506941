/** Running the parser over a rendered query, from any cursor and with any input after it. */
module FilterParses {
  import opened Options
  import opened FilterText
  import opened FilterSpec
  import opened FilterRoundTrip
  import opened FilterLeaf

  ghost predicate At(chars: string, i: nat, text: string) {
    i + |text| <= |chars| && chars[i..i + |text|] == text
  }

  lemma AtSplit(chars: string, i: nat, a: string, b: string)
    requires At(chars, i, a + b)
    ensures At(chars, i, a) && At(chars, i + |a|, b)
  {
    assert chars[i..i + |a|] == chars[i..i + |a + b|][..|a|];
    assert chars[i + |a|..i + |a + b|] == chars[i..i + |a + b|][|a|..];
  }

  lemma AtChar(chars: string, i: nat, a: char, rest: string)
    requires At(chars, i, [a] + rest)
    ensures i < |chars| && chars[i] == a && At(chars, i + 1, rest)
  {
    AtSplit(chars, i, [a], rest);
    assert chars[i] == chars[i..i + 1][0];
  }

  function Place(t: Tree, ctx: Ctx): Cursor
    requires t.Node?
  {
    Cursor(t.value, t.left, t.right, ctx)
  }

  /** Where the child that AddChild makes hangs. */
  function Below(c: Cursor): Ctx { AddChild(c, Nested).ctx }

  lemma LeafScans(chars: string, i: nat, key: string, op: string, value: string)
    requires At(chars, i, LeafText(key, op, value) + ")")
    requires KeyText(key) && IsLeafOperator(op) && ValueOk(value)
    ensures i < |chars| && chars[i] == '\'' && ScanLeaf(chars[i..]) == Some(LeafToken(key, op, value))
  {
    var leaf := LeafText(key, op, value) + ")";
    var rest := chars[i + |leaf|..];
    assert chars[i..] == leaf + rest;
    assert leaf + rest == LeafText(key, op, value) + ")" + rest;
    OperatorShape(op);
    ScanExact(key, op, value, rest);
    assert chars[i] == chars[i..][0] == '\'';
  }

  lemma LeafTaken(chars: string, i: nat, c: Cursor, t: LeafToken, key: string)
    requires c.value.Nested? && i < |chars| && chars[i] == '\'' && ScanLeaf(chars[i..]) == Some(t)
    requires ParseKey(t.key) == Some(key)
    ensures Run(chars, i, c) == Run(chars, i + LeafWidth(t), Place(LeafTree(key, t.op, t.value), Below(c)))
  {
    hide ParseKey, ScanLeaf, IsLeafOperator;
    assert TakeStep(chars, i, c) == LeafStep(chars, i, c);
  }

  lemma LeafWidthAscii(key: string, op: string, value: string)
    requires IsLeafOperator(op)
    ensures LeafWidth(LeafToken(key, op, value)) >= |LeafText(key, op, value)|
    ensures LeafWidth(LeafToken(key, op, value)) == |LeafText(key, op, value)| <==> Ascii(key) && Ascii(value)
  {
    AsciiBytes(key);
    AsciiBytes(op);
    AsciiBytes(value);
    OperatorShape(op);
    assert Ascii(op);
  }

  lemma CloseRuns(chars: string, i: nat, c: Cursor)
    requires At(chars, i, ")") && !FindAncestor(c).ctx.Top?
    ensures Run(chars, i, c) == Run(chars, i + 1, FindAncestor(c))
  {
    assert ")" == [')'] + "";
    AtChar(chars, i, ')', "");
  }

  lemma ConjRuns(chars: string, i: nat, c: Cursor, conj: string)
    requires (conj == AND || conj == OR) && At(chars, i, "," + conj + ",") && !c.ctx.Top?
    ensures Run(chars, i, c) == Run(chars, i + |conj| + 2, RotateLeft(c, Op(conj)))
  {
    var token := "," + conj + ",";
    assert chars[i..][..|token|] == token;
    assert chars[i..][1] == token[1];
    assert token == [','] + (conj + ",");
    AtChar(chars, i, ',', conj + ",");
    assert conj == AND ==> token == ",AND,";
    assert conj == OR ==> token == ",OR,";
  }

  lemma OpenRuns(chars: string, i: nat, c: Cursor, body: string)
    requires At(chars, i, "(" + body + ")")
    ensures Run(chars, i, c) == Run(chars, i + 1, AddChild(c, Nested))
    ensures At(chars, i + 1, body) && At(chars, i + 1, body + ")") && At(chars, i + 1 + |body|, ")")
  {
    assert "(" + body + ")" == ['('] + (body + ")");
    AtChar(chars, i, '(', body + ")");
    AtSplit(chars, i + 1, body, ")");
  }

  lemma LeafRuns(chars: string, i: nat, n: Cursor, key: string, op: string, value: string)
    requires n.value.Nested? && Valid(Leaf(key, op, value)) && At(chars, i, LeafText(key, op, value) + ")")
    ensures Run(chars, i, n) == Run(chars, i + |LeafText(key, op, value)|, Place(Content(Leaf(key, op, value)), Below(n)))
  {
    hide TakeStep, ParseKey, Split, IsLeafOperator, ScanLeaf, ValueOk;
    LeafScans(chars, i, key, op, value);
    LeafTaken(chars, i, n, LeafToken(key, op, value), ParseKey(key).value);
    LeafWidthAscii(key, op, value);
  }

  lemma LeafQueryRuns(chars: string, i: nat, c: Cursor, key: string, op: string, value: string)
    requires Valid(Leaf(key, op, value)) && At(chars, i, Render(Leaf(key, op, value)))
    ensures Run(chars, i, c) == Run(chars, i + |Render(Leaf(key, op, value))|, Place(Built(Leaf(key, op, value)), Below(c)))
  {
    hide TakeStep, KeyOk, IsLeafOperator, ValueOk;
    var n, leaf, q := AddChild(c, Nested), LeafText(key, op, value), Leaf(key, op, value);
    OpenRuns(chars, i, c, leaf);
    LeafRuns(chars, i + 1, n, key, op, value);
    ContentAncestor(c, q);
    CloseRuns(chars, i + 1 + |leaf|, Place(Content(q), Below(n)));
  }

  /** Parsing a query appends its tree to the cursor and leaves the cursor on its nested node. */
  lemma {:induction false} QueryRuns(chars: string, i: nat, c: Cursor, q: Query)
    requires Valid(q) && At(chars, i, Render(q))
    ensures Run(chars, i, c) == Run(chars, i + |Render(q)|, Place(Built(q), Below(c)))
    decreases q, 1
  {
    hide At, Run, FindAncestor, Valid, ValidRest, Render, RenderRest, Built, Content, Chain, LeafText;
    match q
    case Leaf(key, op, value) =>
      LeafQueryRuns(chars, i, c, key, op, value);
    case Group(first, rest) =>
      ValidGroup(first, rest);
      var n := AddChild(c, Nested);
      GroupOpens(chars, i, c, first, rest);
      QueryRuns(chars, i + 1, n, first);
      var last := RestRuns(chars, i + 1 + |Render(first)|, Built(first), Below(n), rest);
      ContentAncestor(c, q);
      CloseRuns(chars, i + 1 + |Render(first)| + |RenderRest(rest)|, last);
  }

  lemma ValidGroup(first: Query, rest: Rest)
    requires Valid(Group(first, rest))
    ensures Valid(first) && ValidRest(rest)
    ensures Built(first).Node? && Content(Group(first, rest)) == Chain(Built(first), rest)
  {
  }

  lemma ValidMore(t: Tree, conj: string, next: Query, rest: Rest)
    requires ValidRest(More(conj, next, rest))
    ensures (conj == AND || conj == OR) && Valid(next) && ValidRest(rest)
    ensures Built(next).Node? && Chain(t, More(conj, next, rest)) == Node(Op(conj), t, Chain(Built(next), rest))
  {
  }

  lemma GroupOpens(chars: string, i: nat, c: Cursor, first: Query, rest: Rest)
    requires At(chars, i, Render(Group(first, rest)))
    ensures Run(chars, i, c) == Run(chars, i + 1, AddChild(c, Nested))
    ensures At(chars, i + 1, Render(first)) && At(chars, i + 1 + |Render(first)|, RenderRest(rest))
    ensures At(chars, i + 1 + |Render(first)| + |RenderRest(rest)|, ")")
    ensures |Render(Group(first, rest))| == |Render(first)| + |RenderRest(rest)| + 2
  {
    hide At, Run;
    var body := Render(first) + RenderRest(rest);
    assert Render(Group(first, rest)) == "(" + body + ")";
    OpenRuns(chars, i, c, body);
    AtSplit(chars, i + 1, Render(first), RenderRest(rest));
  }

  lemma ContentAncestor(c: Cursor, q: Query)
    requires Valid(q)
    ensures Content(q).Node? && FindAncestor(Place(Content(q), Below(AddChild(c, Nested)))) == Place(Built(q), Below(c))
  {
  }

  /** Parsing the rest of a composite rotates the finished query under each operator. The cursor
      ends inside the chain, but its nested ancestor is the one of the whole chain. */
  lemma {:induction false} RestRuns(chars: string, i: nat, t: Tree, ctx: Ctx, r: Rest) returns (last: Cursor)
    requires t.Node? && !ctx.Top? && ValidRest(r) && At(chars, i, RenderRest(r))
    ensures Run(chars, i, Place(t, ctx)) == Run(chars, i + |RenderRest(r)|, last)
    ensures Chain(t, r).Node? && FindAncestor(last) == FindAncestor(Place(Chain(t, r), ctx))
    decreases r, 0
  {
    EndText(t);
    hide At, Run, FindAncestor, Valid, ValidRest, Render, RenderRest, Built, Content, Chain, LeafText;
    match r
    case End => last := Place(t, ctx);
    case More(conj, next, rest) =>
      ValidMore(t, conj, next, rest);
      var token := "," + conj + ",";
      var c := RotateLeft(Place(t, ctx), Op(conj));
      MoreOpens(chars, i, conj, next, rest);
      ConjRuns(chars, i, Place(t, ctx), conj);
      QueryRuns(chars, i + |token|, c, next);
      last := RestRuns(chars, i + |token| + |Render(next)|, Built(next), Below(c), rest);
      ChainAncestor(c, Chain(Built(next), rest));
  }

  lemma MoreAt(chars: string, i: nat, token: string, next: string, rest: string)
    requires At(chars, i, token + next + rest)
    ensures At(chars, i, token) && At(chars, i + |token|, next) && At(chars, i + |token| + |next|, rest)
  {
    AtSplit(chars, i, token + next, rest);
    AtSplit(chars, i, token, next);
  }

  lemma MoreOpens(chars: string, i: nat, conj: string, next: Query, rest: Rest)
    requires At(chars, i, RenderRest(More(conj, next, rest)))
    ensures At(chars, i, "," + conj + ",") && At(chars, i + |conj| + 2, Render(next))
    ensures At(chars, i + |conj| + 2 + |Render(next)|, RenderRest(rest))
    ensures |RenderRest(More(conj, next, rest))| == |conj| + 2 + |Render(next)| + |RenderRest(rest)|
  {
    hide At;
    var token := "," + conj + ",";
    assert RenderRest(More(conj, next, rest)) == token + Render(next) + RenderRest(rest);
    MoreAt(chars, i, token, Render(next), RenderRest(rest));
  }

  lemma EndText(t: Tree)
    ensures RenderRest(End) == "" && Chain(t, End) == t
  {
  }

  /** Climbing out of the right child of an operator passes the operator itself. */
  lemma ChainAncestor(c: Cursor, t: Tree)
    requires t.Node? && c.left.Node? && !c.value.Nested? && !c.ctx.Top?
    ensures FindAncestor(Place(t, Below(c))) == FindAncestor(Place(Node(c.value, c.left, t), c.ctx))
  {
  }

  /** The round trip: every filter of the grammar parses, to a tree whose in-order print is the
      filter. */
  lemma RoundTrip(q: Query)
    requires Valid(q)
    ensures Parse(Render(q)) == Parsed(Built(q))
    ensures Print(Built(q)) == Render(q)
  {
    hide Run, FindAncestor, KeyOk, IsLeafOperator, ValueOk;
    var s := Render(q);
    assert s[0..|s|] == s;
    QueryRuns(s, 0, ROOT, q);
    PrintBuilt(q);
    Finishes(s, Place(Built(q), Below(ROOT)));
  }

  lemma Finishes(s: string, c: Cursor)
    requires s != "" && Run(s, 0, ROOT) == Run(s, |s|, c) && !c.ctx.Top? && ParentIsRoot(c)
    ensures Parse(s) == Parsed(Node(c.value, c.left, c.right))
  {
  }

  /** Exactly which single leaves parse: the key may hold at most one ->, or exactly one ->>; and,
      because the parser advances by byte lengths over an index of characters, all of it must be
      ASCII. */
  lemma LeafParsesIff(key: string, op: string, value: string)
    requires KeyText(key) && IsLeafOperator(op) && ValueOk(value)
    ensures Parse("(" + LeafText(key, op, value) + ")").Parsed? <==>
              ParseKey(key).Some? && Ascii(key) && Ascii(value)
  {
    hide ScanLeaf, FindAncestor, LogicalStep, IsLeafOperator, LeafWidth;
    var leaf := LeafText(key, op, value);
    var s := "(" + leaf + ")";
    if ParseKey(key).Some? && Ascii(key) && Ascii(value) {
      RoundTrip(Leaf(key, op, value));
    } else {
      assert s[0..|s|] == s;
      OpenRuns(s, 0, ROOT, leaf);
      LeafScans(s, 1, key, op, value);
      LeafWidthAscii(key, op, value);
      var n := AddChild(ROOT, Nested);
      if ParseKey(key).Some? {
        LeafTaken(s, 1, n, LeafToken(key, op, value), ParseKey(key).value);
        OvershootUnbalanced(s, 1 + LeafWidth(LeafToken(key, op, value)), n, LeafTree(ParseKey(key).value, op, value));
      } else {
        assert TakeStep(s, 1, n) == LeafStep(s, 1, n) == Bad(InvalidKey);
      }
    }
  }

  /** Of all operators written in capitals, a leaf may have just these. */
  lemma OperatorsIff(key: string, op: string, value: string)
    requires KeyText(key) && Capitals(op) && ValueOk(value)
    ensures Parse("(" + LeafText(key, op, value) + ")").Parsed? <==>
              && op in ["EQ", "GE", "GT", "LE", "LT", "NE", "IL", "LK", "NL", "HAS"]
              && ParseKey(key).Some? && Ascii(key) && Ascii(value)
  {
    hide ParseKey, ValueOk;
    if IsLeafOperator(op) {
      LeafParsesIff(key, op, value);
    } else {
      hide IsLeafOperator;
      OtherOperator(key, op, value);
    }
  }

  lemma OtherOperator(key: string, op: string, value: string)
    requires KeyText(key) && Capitals(op) && ValueOk(value) && !IsLeafOperator(op)
    ensures Parse("(" + LeafText(key, op, value) + ")") == Rejected(InvalidLeaf)
  {
    hide ScanLeaf, FindAncestor, LogicalStep, IsLeafOperator, LeafWidth, ParseKey, ValueOk;
    var leaf := LeafText(key, op, value);
    var s := "(" + leaf + ")";
    assert s[0..|s|] == s;
    OpenRuns(s, 0, ROOT, leaf);
    assert s[1..] == leaf + ")" + "";
    ScanExact(key, op, value, "");
    var n := AddChild(ROOT, Nested);
    assert s[1] == '\'';
    assert TakeStep(s, 1, n) == LeafStep(s, 1, n) == Bad(InvalidLeaf);
  }

  lemma OvershootUnbalanced(s: string, i: nat, n: Cursor, t: Tree)
    requires i >= |s| && n == AddChild(ROOT, Nested) && t.Node?
    ensures Run(s, i, Place(t, Below(n))) == Next(i, Place(t, Below(n))) && !ParentIsRoot(Place(t, Below(n)))
  {
  }
}
