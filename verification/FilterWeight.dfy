/** The bytes that a tree accounts for. The parser's index never falls behind the weight of what it
    has built, so a parse that ends in time cannot have built the tree of a longer text. */
module FilterWeight {
  import opened Options
  import opened FilterText
  import opened FilterSpec
  import opened FilterRoundTrip

  /** A group stands for two parentheses, a leaf for its text and one closing parenthesis. */
  function Own(v: Val): nat {
    match v
    case NoVal => 0
    case Nested => 2
    case Op(op) => if IsLeafOperator(op) then ByteLen(op) + 7 else ByteLen(op) + 2
    case Text(text) => ByteLen(text)
  }

  predicate Opened(t: Tree) { t.Node? && !t.value.Text? }

  /** A group that hangs under an operator takes no parenthesis of its own level to close. */
  function Shared(v: Val, right: Tree): nat { if v.Op? && Opened(right) then 1 else 0 }

  predicate IsKey(v: Val, left: Tree) { v.Op? && IsLeafOperator(v.op) && left.Node? && left.value.Text? }

  function Weight(t: Tree): nat {
    match t
    case Nil => 0
    case Node(v, left, right) =>
      Own(v) + (if IsKey(v, left) then ByteLen(DropQuotes(left.value.text)) else Weight(left)) + Weight(right) - Shared(v, right)
  }

  function LeftWeight(v: Val, left: Tree): nat {
    if IsKey(v, left) then ByteLen(DropQuotes(left.value.text)) else Weight(left)
  }

  lemma NodeWeight(v: Val, left: Tree, right: Tree)
    ensures Weight(Node(v, left, right)) == Own(v) + LeftWeight(v, left) + Weight(right) - Shared(v, right)
  {
  }

  function CtxWeight(ctx: Ctx): nat {
    match ctx
    case Top => 0
    case InLeft(v, right, up) => Own(v) + Weight(right) - Shared(v, right) + CtxWeight(up)
    case InRight(v, left, up) => Own(v) + LeftWeight(v, left) - (if v.Op? then 1 else 0) + CtxWeight(up)
  }

  function Nesting(ctx: Ctx): nat {
    match ctx
    case Top => 0
    case InLeft(v, _, up) => (if v.Nested? then 1 else 0) + Nesting(up)
    case InRight(v, _, up) => (if v.Nested? then 1 else 0) + Nesting(up)
  }

  /** How many parentheses are still to close. */
  function Level(c: Cursor): nat { if c.ctx.Top? then 0 else Nesting(c.ctx) + 1 }

  function Accounted(c: Cursor): int { Weight(Node(c.value, c.left, c.right)) + CtxWeight(c.ctx) - Level(c) }

  // ----- What cursors look like -----

  predicate CtxOk(ctx: Ctx) {
    match ctx
    case Top => true
    case InLeft(v, _, up) => (if up.Top? then v.NoVal? else v.Nested? || v.Op?) && CtxOk(up)
    case InRight(v, _, up) => (if up.Top? then v.NoVal? else v.Nested? || v.Op?) && CtxOk(up)
  }

  predicate CursorOk(c: Cursor) {
    && CtxOk(c.ctx)
    && if c.ctx.Top? then c.value.NoVal?
       else c.value.Nested? || (c.value.Op? && c.left.Node? && !Opened(c.right))
  }

  /** The cursor is a child of a group: that is where a leaf leaves it. */
  predicate InGroup(c: Cursor) {
    match c.ctx
    case Top => false
    case InLeft(v, _, _) => v.Nested?
    case InRight(v, _, _) => v.Nested?
  }

  // ----- Each token -----

  lemma OpenWeight(c: Cursor)
    requires CursorOk(c)
    ensures CursorOk(FilterSpec.AddChild(c, Nested)) && Accounted(FilterSpec.AddChild(c, Nested)) <= Accounted(c) + 1
  {
    NodeWeight(c.value, c.left, c.right);
    assert Weight(Node(Nested, Nil, Nil)) == 2;
  }

  lemma RotateWeight(c: Cursor, op: string)
    requires CursorOk(c) && !c.ctx.Top? && !IsLeafOperator(op)
    ensures CursorOk(RotateLeft(c, Op(op))) && Accounted(RotateLeft(c, Op(op))) <= Accounted(c) + ByteLen(op) + 2
  {
    NodeWeight(Op(op), Node(c.value, c.left, c.right), Nil);
  }

  lemma LeafTreeWeight(key: string, op: string, value: string)
    requires IsLeafOperator(op)
    ensures Weight(LeafTree(key, op, value)) == ByteLen(DropQuotes(key)) + ByteLen(op) + ByteLen(value) + 7
  {
    assert Weight(Node(Text(value), Nil, Nil)) == ByteLen(value);
    NodeWeight(Op(op), Node(Text(key), Nil, Nil), Node(Text(value), Nil, Nil));
  }

  lemma {:induction false} DropQuotesShorter(s: string)
    ensures ByteLen(DropQuotes(s)) <= ByteLen(s)
  {
    if s != "" {
      DropQuotesShorter(s[1..]);
      BytesConcat([s[0]], DropQuotes(s[1..]));
      BytesConcat([s[0]], s[1..]);
      assert [s[0]] + s[1..] == s;
    }
  }

  function Leafed(c: Cursor, key: string, op: string, value: string): Cursor {
    Attach(Attach(FilterSpec.AddChild(c, Op(op)), Text(key)), Text(value))
  }

  lemma LeafWeight(c: Cursor, t: LeafToken, key: string)
    requires CursorOk(c) && c.value.Nested? && IsLeafOperator(t.op) && ParseKey(t.key) == Some(key)
    ensures var d := Leafed(c, key, t.op, t.value);
      CursorOk(d) && InGroup(d) && Accounted(d) <= Accounted(c) + LeafWidth(t)
  {
    hide ParseKey, IsLeafOperator, ByteLen;
    ParseKeyAddsQuotes(t.key);
    DropQuotesShorter(t.key);
    LeafTreeWeight(key, t.op, t.value);
    NodeWeight(c.value, c.left, c.right);
  }

  /** Moving up changes nothing but the level. */
  lemma UpWeight(c: Cursor)
    requires !c.ctx.Top? && CtxOk(c.ctx) && !c.value.Text?
    ensures var up := Up(c);
      && Weight(Node(up.value, up.left, up.right)) + CtxWeight(up.ctx) == Weight(Node(c.value, c.left, c.right)) + CtxWeight(c.ctx)
      && Nesting(c.ctx) == Nesting(up.ctx) + (if up.value.Nested? then 1 else 0)
      && CtxOk(up.ctx) && (up.ctx.Top? ==> up.value.NoVal?) && (!up.ctx.Top? ==> up.value.Nested? || up.value.Op?)
  {
    var whole := Node(c.value, c.left, c.right);
    match c.ctx
    case InLeft(v, right, up) => NodeWeight(v, whole, right);
    case InRight(v, left, up) => NodeWeight(v, left, whole);
  }

  /** Closing a group moves to the group around the cursor, one level up. */
  lemma {:induction false} CloseFrom(c: Cursor)
    requires CtxOk(c.ctx) && (if c.ctx.Top? then c.value.NoVal? else c.value.Op? || c.value.Nested?)
    requires !FindAncestor(c).ctx.Top?
    ensures var a := FindAncestor(c);
      && CursorOk(a)
      && Weight(Node(a.value, a.left, a.right)) + CtxWeight(a.ctx) == Weight(Node(c.value, c.left, c.right)) + CtxWeight(c.ctx)
      && Nesting(c.ctx) == Nesting(a.ctx) + 1
    decreases c.ctx
  {
    UpWeight(c);
    if !Up(c).value.Nested? {
      CloseFrom(Up(c));
    }
  }

  lemma CloseWeight(c: Cursor)
    requires CursorOk(c) && !FindAncestor(c).ctx.Top?
    ensures CursorOk(FindAncestor(c)) && Accounted(FindAncestor(c)) == Accounted(c) + 1
  {
    CloseFrom(c);
  }

  // ----- Whole runs -----

  /** Only a leaf can carry the index past the end of the input. */
  ghost predicate InTime(chars: string, i: nat, c: Cursor) { i <= |chars| || InGroup(c) }

  lemma LogicalWeight(chars: string, i: nat, c: Cursor)
    requires i < |chars| && CursorOk(c) && LogicalStep(chars, i, c).Next?
    ensures var r := LogicalStep(chars, i, c);
      CursorOk(r.cur) && r.index <= |chars| && Accounted(r.cur) <= Accounted(c) + (r.index - i)
  {
    assert ByteLen(AND) == 3 && ByteLen(OR) == 2 by {
      assert AND[1..] == "ND" && "ND"[1..] == "D" && "D"[1..] == "" && OR[1..] == "R" && "R"[1..] == "";
    }
    assert !IsLeafOperator(AND) && !IsLeafOperator(OR);
    hide ByteLen, IsLeafOperator;
    if ",AND," <= chars[i..] { RotateWeight(c, AND); } else { RotateWeight(c, OR); }
  }

  lemma StepWeight(chars: string, i: nat, c: Cursor)
    requires i < |chars| && CursorOk(c) && TakeStep(chars, i, c).Next?
    ensures var r := TakeStep(chars, i, c);
      CursorOk(r.cur) && InTime(chars, r.index, r.cur) && Accounted(r.cur) <= Accounted(c) + (r.index - i)
  {
    hide CursorOk, Accounted, FindAncestor, ScanLeaf, ParseKey, LeafWidth, LogicalStep, FilterSpec.AddChild;
    match chars[i]
    case '(' => OpenWeight(c);
    case ')' => CloseWeight(c);
    case '\'' => LeafStepWeight(chars, i, c);
    case ',' => LogicalWeight(chars, i, c);
    case _ =>
  }

  lemma LeafStepWeight(chars: string, i: nat, c: Cursor)
    requires i < |chars| && CursorOk(c) && LeafStep(chars, i, c).Next?
    ensures var r := LeafStep(chars, i, c);
      CursorOk(r.cur) && InGroup(r.cur) && Accounted(r.cur) <= Accounted(c) + (r.index - i)
  {
    hide CursorOk, Accounted, ParseKey, LeafWidth, IsLeafOperator, InGroup, FindLeaf;
    var t := ScanLeaf(chars[i..]).value;
    LeafWeight(c, t, ParseKey(t.key).value);
  }

  lemma {:induction false} RunWeight(chars: string, i: nat, c: Cursor)
    requires CursorOk(c) && InTime(chars, i, c) && Accounted(c) <= i && Run(chars, i, c).Next?
    ensures var r := Run(chars, i, c); CursorOk(r.cur) && InTime(chars, r.index, r.cur) && Accounted(r.cur) <= r.index
    decreases |chars| - i
  {
    hide CursorOk, Accounted, InTime, TakeStep;
    if i < |chars| {
      StepWeight(chars, i, c);
      RunWeight(chars, TakeStep(chars, i, c).index, TakeStep(chars, i, c).cur);
    }
  }

  /** What is accepted accounts for no more bytes than the filter has characters. */
  lemma ParsedFits(filter: string)
    requires Parse(filter).Parsed?
    ensures Weight(Parse(filter).tree) <= |filter| + 1
  {
    hide Run, Weight, CtxWeight;
    RunLeavesRoot(filter, 0, ROOT);
    RootAccounted();
    RunWeight(filter, 0, ROOT);
    ChildOfRoot(Run(filter, 0, ROOT).cur);
  }

  lemma RootAccounted()
    ensures CursorOk(ROOT) && Accounted(ROOT) == 0
  {
  }

  lemma ChildOfRoot(c: Cursor)
    requires CursorOk(c) && !c.ctx.Top? && ParentIsRoot(c)
    ensures !InGroup(c) && Accounted(c) >= Weight(Node(c.value, c.left, c.right)) - 1
  {
    match c.ctx
    case InLeft(v, right, up) => assert up.Top? && v.NoVal? && Nesting(c.ctx) == 0;
    case InRight(v, left, up) => assert up.Top? && v.NoVal? && Nesting(c.ctx) == 0;
  }
}
