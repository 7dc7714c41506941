/** Every filter of the documented grammar parses, and printing the tree in order gives it back. */
module FilterRoundTrip {
  import opened Options
  import opened FilterText
  import opened FilterSpec

  /** LEAF, NESTED (a group of one) and COMPOSITE filters. */
  datatype Query = Leaf(key: string, op: string, value: string) | Group(first: Query, rest: Rest)
  datatype Rest = End | More(conj: string, next: Query, rest: Rest)

  function LeafText(key: string, op: string, value: string): string {
    "'" + key + "'," + op + ",'" + value + "'"
  }

  function Render(q: Query): string {
    match q
    case Leaf(key, op, value) => "(" + LeafText(key, op, value) + ")"
    case Group(first, rest) => "(" + Render(first) + RenderRest(rest) + ")"
  }

  function RenderRest(r: Rest): string {
    match r
    case End => ""
    case More(conj, next, rest) => "," + conj + "," + Render(next) + RenderRest(rest)
  }

  /** A value is read up to its first closing "')": so it may not contain one unescaped, may not
      end in a backslash, and may hold a line break only at its very end. */
  ghost predicate ValueOk(v: string) {
    && v != "" && v[|v| - 1] != '\\' && '\n' !in v[..|v| - 1]
    && forall e :: 1 <= e && e + 1 < |v| ==> !(v[e] == '\'' && v[e + 1] == ')' && v[e - 1] != '\\')
  }

  predicate KeyText(key: string) { key != "" && '\'' !in key && ',' !in key }

  predicate KeyOk(key: string) { KeyText(key) && ParseKey(key).Some? }

  /** The grammar, over any characters. */
  ghost predicate Grammar(q: Query) {
    match q
    case Leaf(key, op, value) => KeyText(key) && IsLeafOperator(op) && ValueOk(value)
    case Group(first, rest) => Grammar(first) && GrammarRest(rest)
  }

  ghost predicate GrammarRest(r: Rest) {
    match r
    case End => true
    case More(conj, next, rest) => (conj == AND || conj == OR) && Grammar(next) && GrammarRest(rest)
  }

  /** Every key and value is ASCII. */
  predicate AsciiQuery(q: Query) {
    match q
    case Leaf(key, _, value) => Ascii(key) && Ascii(value)
    case Group(first, rest) => AsciiQuery(first) && AsciiRest(rest)
  }

  predicate AsciiRest(r: Rest) {
    match r
    case End => true
    case More(_, next, rest) => AsciiQuery(next) && AsciiRest(rest)
  }

  /** Every key is accepted: it has at most one ->, or exactly one ->>. */
  predicate KeysParse(q: Query) {
    match q
    case Leaf(key, _, _) => ParseKey(key).Some?
    case Group(first, rest) => KeysParse(first) && RestKeysParse(rest)
  }

  predicate RestKeysParse(r: Rest) {
    match r
    case End => true
    case More(_, next, rest) => KeysParse(next) && RestKeysParse(rest)
  }

  ghost predicate Valid(q: Query) { Grammar(q) && AsciiQuery(q) && KeysParse(q) }

  ghost predicate ValidRest(r: Rest) { GrammarRest(r) && AsciiRest(r) && RestKeysParse(r) }

  /** The documented form of a string value: quotes only after a backslash, no trailing backslash. */
  lemma EscapedValueOk(v: string)
    requires v != "" && v[|v| - 1] != '\\' && '\n' !in v
    requires forall e :: 0 <= e < |v| && v[e] == '\'' ==> e > 0 && v[e - 1] == '\\'
    ensures ValueOk(v)
  {
    assert forall i :: 0 <= i < |v| - 1 ==> v[..|v| - 1][i] == v[i];
  }

  // ----- The tree of a query, and printing -----

  function Rewritten(key: string): string { if ParseKey(key).Some? then ParseKey(key).value else key }

  function LeafTree(key: string, op: string, value: string): Tree {
    Node(Op(op), Node(Text(key), Nil, Nil), Node(Text(value), Nil, Nil))
  }

  function Built(q: Query): Tree
    decreases q, 1
  {
    Node(Nested, Content(q), Nil)
  }

  function Content(q: Query): Tree
    decreases q, 0
  {
    match q
    case Leaf(key, op, value) => LeafTree(Rewritten(key), op, value)
    case Group(first, rest) => Chain(Built(first), rest)
  }

  function Chain(t: Tree, r: Rest): Tree
    decreases r, 2
  {
    match r
    case End => t
    case More(conj, next, rest) => Node(Op(conj), t, Chain(Built(next), rest))
  }

  /** In-order print: nested nodes as parentheses, logical nodes between their children, leaves as
      key, operator and value, with the key as it was before it was rewritten. */
  function Print(t: Tree): string {
    match t
    case Nil => ""
    case Node(Nested, left, _) => "(" + Print(left) + ")"
    case Node(Op(op), left, right) =>
      if IsLeafOperator(op) then LeafText(PrintKey(left), op, PrintValue(right))
      else Print(left) + "," + op + "," + Print(right)
    case Node(Text(text), _, _) => text
    case Node(NoVal, _, _) => ""
  }

  function PrintKey(t: Tree): string { if t.Node? && t.value.Text? then DropQuotes(t.value.text) else "" }

  function PrintValue(t: Tree): string { if t.Node? && t.value.Text? then t.value.text else "" }

  lemma {:induction false} PrintBuilt(q: Query)
    requires Valid(q)
    ensures Print(Built(q)) == Render(q)
  {
    match q
    case Leaf(key, op, value) =>
      ParseKeyUndone(key);
      assert Print(Content(q)) == LeafText(key, op, value);
    case Group(first, rest) =>
      PrintBuilt(first);
      PrintChain(Built(first), rest);
      assert Print(Content(q)) == Render(first) + RenderRest(rest);
  }

  lemma {:induction false} PrintChain(t: Tree, r: Rest)
    requires ValidRest(r)
    ensures Print(Chain(t, r)) == Print(t) + RenderRest(r)
    decreases r
  {
    match r
    case End => assert Print(t) + "" == Print(t);
    case More(conj, next, rest) =>
      PrintBuilt(next);
      PrintChain(Built(next), rest);
      PrintLogical(conj, t, Chain(Built(next), rest));
      Reassociate(Print(t), "," + conj + ",", Render(next), RenderRest(rest));
  }

  lemma PrintLogical(conj: string, left: Tree, right: Tree)
    requires conj == AND || conj == OR
    ensures Print(Node(Op(conj), left, right)) == Print(left) + ("," + conj + ",") + Print(right)
  {
    assert !IsLeafOperator(conj);
    assert Print(left) + "," + conj + "," == Print(left) + ("," + conj + ",");
  }

  lemma Reassociate(a: string, b: string, c: string, d: string)
    ensures a + b + (c + d) == a + (b + c + d)
  {
  }
}
