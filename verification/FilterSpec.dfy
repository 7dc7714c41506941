/** The filter parser as a function on a tree with a cursor. The cursor's context is the path up
    to the root; it is all the parser ever follows upwards. */
module FilterSpec {
  import opened Options
  import opened FilterText

  datatype Val = NoVal | Nested | Op(op: string) | Text(text: string)

  datatype Tree = Nil | Node(value: Val, left: Tree, right: Tree)

  /** The path from a node up to the root: which child it is, and what its parent holds besides. */
  datatype Ctx = Top | InLeft(value: Val, right: Tree, up: Ctx) | InRight(value: Val, left: Tree, up: Ctx)

  datatype Cursor = Cursor(value: Val, left: Tree, right: Tree, ctx: Ctx)

  function AddChild(c: Cursor, value: Val): Cursor {
    Cursor(value, Nil, Nil, if c.left.Nil? then InLeft(c.value, c.right, c.ctx) else InRight(c.value, c.left, c.ctx))
  }

  /** Adding a child that the cursor does not move to. */
  function Attach(c: Cursor, value: Val): Cursor {
    if c.left.Nil? then c.(left := Node(value, Nil, Nil)) else c.(right := Node(value, Nil, Nil))
  }

  function RotateLeft(c: Cursor, value: Val): Cursor {
    Cursor(value, Node(c.value, c.left, c.right), Nil, c.ctx)
  }

  function Up(c: Cursor): Cursor
    requires !c.ctx.Top?
  {
    var whole := Node(c.value, c.left, c.right);
    match c.ctx
    case InLeft(value, right, up) => Cursor(value, whole, right, up)
    case InRight(value, left, up) => Cursor(value, left, whole, up)
  }

  /** The nearest strict ancestor that is a nested node, or the root. */
  function FindAncestor(c: Cursor): (r: Cursor)
    ensures r.ctx.Top? || r.value.Nested?
    decreases c.ctx
  {
    if c.ctx.Top? then c
    else if Up(c).value.Nested? then Up(c)
    else FindAncestor(Up(c))
  }

  // ----- One token -----

  datatype LeafToken = LeafToken(key: string, op: string, value: string)

  /** What parseLeaf makes of the rest of the input. The search is not anchored, so the
      expression found may start later than the cursor. */
  function ScanLeaf(remaining: string): Option<LeafToken> {
    match FindLeaf(remaining, 0)
    case None => None
    case Some(leaf) =>
      var parts := SplitN(TrimPrefix(leaf, "'"), 3);
      if |parts| != 3 then None
      else
        var key, op := TrimSuffix(parts[0], "'"), parts[1];
        var value := TrimSuffix(TrimPrefix(parts[2], "'"), "')");
        if IsLeafOperator(op) then Some(LeafToken(key, op, value)) else None
  }

  function LeafWidth(t: LeafToken): nat { ByteLen(t.key) + ByteLen(t.op) + ByteLen(t.value) + 6 }

  datatype Error = Empty | UnexpectedLeaf | InvalidLeaf | InvalidKey | InvalidLogical
                 | UnrecognizedOperator | UnbalancedClose | UnexpectedChar | Unbalanced

  datatype Step = Next(index: nat, cur: Cursor) | Bad(error: Error)

  function LeafStep(chars: string, i: nat, c: Cursor): (r: Step)
    requires i < |chars|
    ensures r.Next? ==> i < r.index && !r.cur.ctx.Top?
  {
    if !c.value.Nested? then Bad(UnexpectedLeaf)
    else match ScanLeaf(chars[i..])
      case None => Bad(InvalidLeaf)
      case Some(t) =>
        match ParseKey(t.key)
        case None => Bad(InvalidKey)
        case Some(key) =>
          Next(i + LeafWidth(t), Attach(Attach(AddChild(c, Op(t.op)), Text(key)), Text(t.value)))
  }

  function LogicalStep(chars: string, i: nat, c: Cursor): (r: Step)
    requires i < |chars|
    ensures r.Next? ==> i < r.index && !r.cur.ctx.Top?
  {
    if c.ctx.Top? then Bad(InvalidLogical)
    else if ",AND," <= chars[i..] then Next(i + 5, RotateLeft(c, Op(AND)))
    else if ",OR," <= chars[i..] then Next(i + 4, RotateLeft(c, Op(OR)))
    else Bad(UnrecognizedOperator)
  }

  /** Every accepted token moves the index strictly forward and leaves the cursor below the root. */
  function TakeStep(chars: string, i: nat, c: Cursor): (r: Step)
    requires i < |chars|
    ensures r.Next? ==> i < r.index && !r.cur.ctx.Top?
  {
    match chars[i]
    case '(' => Next(i + 1, AddChild(c, Nested))
    case ')' =>
      var up := FindAncestor(c);
      if up.ctx.Top? then Bad(UnbalancedClose) else Next(i + 1, up)
    case '\'' => LeafStep(chars, i, c)
    case ',' => LogicalStep(chars, i, c)
    case _ => Bad(UnexpectedChar)
  }

  function Run(chars: string, i: nat, c: Cursor): Step
    decreases |chars| - i
  {
    if i >= |chars| then Next(i, c)
    else match TakeStep(chars, i, c)
      case Bad(e) => Bad(e)
      case Next(j, d) => Run(chars, j, d)
  }

  datatype Result = Parsed(tree: Tree) | Rejected(error: Error)

  const ROOT := Cursor(NoVal, Nil, Nil, Top)

  function ParentIsRoot(c: Cursor): bool
    requires !c.ctx.Top?
  {
    Up(c).ctx.Top?
  }

  lemma {:induction false} RunLeavesRoot(chars: string, i: nat, c: Cursor)
    requires i < |chars| || !c.ctx.Top?
    ensures Run(chars, i, c).Next? ==> !Run(chars, i, c).cur.ctx.Top?
    decreases |chars| - i
  {
    if i < |chars| && TakeStep(chars, i, c).Next? {
      RunLeavesRoot(chars, TakeStep(chars, i, c).index, TakeStep(chars, i, c).cur);
    }
  }

  function Parse(filter: string): Result {
    if filter == "" then Rejected(Empty)
    else
      RunLeavesRoot(filter, 0, ROOT);
      match Run(filter, 0, ROOT)
      case Bad(e) => Rejected(e)
      case Next(_, c) =>
        if ParentIsRoot(c) then Parsed(Node(c.value, c.left, c.right)) else Rejected(Unbalanced)
  }
}
