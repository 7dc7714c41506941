/** The parser object. Each method is one step of the functional parser on the abstract cursor, and
    Parse builds in the heap exactly the tree that the functional parser returns. */
module FilterParser {
  import opened Options
  import opened FilterText
  import opened FilterSpec
  import opened FilterHeap

  class Parser {
    const chars: string
    var index: nat
    var fq: FilterQuery
    ghost var path: Path

    ghost predicate Valid()
      reads this, path.spine, path.shape.Keys
    {
      Shaped(path) && fq == path.spine[|path.spine| - 1]
    }

    ghost function Nodes(): set<FilterQuery>
      reads this
    {
      NodesOf(path)
    }

    ghost function Cur(): Cursor
      requires Valid()
      reads this, path.spine, path.shape.Keys
    {
      CursorOf(path)
    }

    /** The parser now stands where the step went. */
    ghost predicate Reached(step: Step)
      requires step.Next?
      reads this, path.spine, path.shape.Keys
    {
      Valid() && index == step.index && Cur() == step.cur
    }

    constructor (filter: string)
      ensures Valid() && fresh(Nodes()) && chars == filter && index == 0 && Cur() == ROOT
    {
      chars := filter;
      index := 0;
      var root := new FilterQuery(NoVal, null, null, null);
      fq := root;
      path := Path([root], [Top], map[]);
    }

    /** Adds a child and moves to it. */
    method Enter(value: Val)
      requires Valid()
      modifies this`path, this`fq, fq
      ensures Valid() && fresh(fq) && Cur() == FilterSpec.AddChild(old(Cur()), value)
      ensures fresh(Nodes() - old(Nodes()))
    {
      hide FilterHeap.Link, Frozen;
      Owned();
      var child := fq.AddChild(value);
      path := Descend(path, child);
      fq := child;
    }

    method ParseStartNested()
      requires Valid()
      modifies this, fq
      ensures Reached(Next(old(index) + 1, FilterSpec.AddChild(old(Cur()), Nested)))
      ensures fresh(Nodes() - old(Nodes()))
    {
      hide Shaped, NodesOf, CursorOf;
      Enter(Nested);
      index := index + 1;
    }

    method ParseEndNested() returns (error: Option<Error>)
      requires Valid()
      modifies this
      ensures var up := FilterSpec.FindAncestor(old(Cur()));
        if up.ctx.Top? then error == Some(UnbalancedClose)
        else error.None? && Reached(Next(old(index) + 1, up))
      ensures Nodes() == old(Nodes())
    {
      hide Shaped, NodesOf, AncestorIndex, FilterSpec.FindAncestor;
      TopIsRoot(path);
      fq := fq.FindAncestor(path.spine);
      path := PopToAncestor(path);
      TopIsRoot(path);
      if fq.IsRoot() {
        return Some(UnbalancedClose);
      }
      index := index + 1;
      return None;
    }

    method ParseLogical() returns (error: Option<Error>)
      requires Valid() && index < |chars|
      modifies this, fq
      ensures match LogicalStep(chars, old(index), old(Cur()))
        case Bad(e) => error == Some(e)
        case Next(i, c) => error.None? && Reached(Next(i, c))
      ensures fresh(Nodes() - old(Nodes()))
    {
      hide Shaped, NodesOf, FilterSpec.RotateLeft;
      TopIsRoot(path);
      if fq.IsRoot() {
        return Some(InvalidLogical);
      }
      var remaining := chars[index..];
      if ",AND," <= remaining {
        Rotate(Op(AND));
        index := index + 5;
      } else if ",OR," <= remaining {
        Rotate(Op(OR));
        index := index + 4;
      } else {
        return Some(UnrecognizedOperator);
      }
      return None;
    }

    method Rotate(value: Val)
      requires Valid()
      modifies this`path, fq
      ensures Valid() && Cur() == FilterSpec.RotateLeft(old(Cur()), value)
      ensures fresh(Nodes() - old(Nodes()))
    {
      hide FilterHeap.Link, Frozen;
      Owned();
      fq.RotateLeft(value);
      path := Freeze(path, fq.leftChild);
    }

    /** Adds a child that the parser does not move to. */
    method AddSide(value: Val)
      requires Valid()
      modifies this`path, fq
      ensures Valid() && Cur() == Attach(old(Cur()), value)
      ensures fresh(Nodes() - old(Nodes()))
    {
      hide FilterHeap.Link, Frozen;
      Owned();
      var child := fq.AddChild(value);
      path := Freeze(path, child);
    }

    method ParseLeaf() returns (error: Option<Error>)
      requires Valid() && index < |chars|
      modifies this, fq
      ensures match LeafStep(chars, old(index), old(Cur()))
        case Bad(e) => error == Some(e)
        case Next(i, c) => error.None? && Reached(Next(i, c))
      ensures fresh(Nodes() - old(Nodes()))
    {
      hide Shaped, FilterSpec.AddChild, Attach, TreeAt;
      hide FindLeaf, SplitN, TrimPrefix, TrimSuffix, IsLeafOperator, ParseKey, ByteLen;
      if !fq.IsNested() {
        return Some(UnexpectedLeaf);
      }
      var leaf := FindLeaf(chars[index..], 0);
      if leaf.None? {
        return Some(InvalidLeaf);
      }
      var parts := SplitN(TrimPrefix(leaf.value, "'"), 3);
      if |parts| != 3 {
        return Some(InvalidLeaf);
      }
      var key, op := TrimSuffix(parts[0], "'"), parts[1];
      var value := TrimSuffix(TrimPrefix(parts[2], "'"), "')");
      if !IsLeafOperator(op) {
        return Some(InvalidLeaf);
      }
      assert ScanLeaf(chars[index..]) == Some(LeafToken(key, op, value));
      Enter(Op(op));
      var keyToAdd := ParseKey(key);
      if keyToAdd.None? {
        return Some(InvalidKey);
      }
      AddSide(Text(keyToAdd.value));
      AddSide(Text(value));
      index := index + ByteLen(key) + ByteLen(op) + ByteLen(value) + 6;
      return None;
    }

    lemma Owned()
      requires Valid()
      ensures forall n :: n in path.spine ==> n in Nodes()
      ensures forall n :: n in path.shape ==> n in Nodes()
      ensures Cur().left.Nil? <==> fq.leftChild == null
    {
    }

    /** The whole loop. The final look at the parent of the cursor never meets a null pointer. */
    method Parse() returns (error: Option<Error>, tree: FilterQuery?)
      requires Valid() && index == 0 && Cur() == ROOT
      modifies this, Nodes()
      ensures match FilterSpec.Parse(chars)
        case Rejected(e) => error == Some(e)
        case Parsed(t) => error.None? && tree != null && Represents(tree, t, Nodes())
      ensures fresh(Nodes() - old(Nodes()))
    {
      error, tree := None, null;
      if chars == "" {
        return Some(Empty), null;
      }
      while index < |chars|
        invariant Valid() && fresh(Nodes() - old(Nodes()))
        invariant Run(chars, index, Cur()) == Run(chars, 0, ROOT)
        invariant index < |chars| || !Cur().ctx.Top?
        decreases |chars| - index
      {
        error := ParseNext();
        if error.Some? {
          return error, null;
        }
      }
      TopIsRoot(path);
      RunLeavesRoot(chars, 0, ROOT);
      ghost var up := Pop(path);
      TopIsRoot(up);
      if !fq.parent.IsRoot() {
        return Some(Unbalanced), null;
      }
      FrozenRepresents(fq.leftChild, path.shape, Nodes());
      FrozenRepresents(fq.rightChild, path.shape, Nodes());
      return None, fq;
    }

    /** One turn of the loop. */
    method ParseNext() returns (error: Option<Error>)
      requires Valid() && index < |chars|
      modifies this, fq
      ensures match TakeStep(chars, old(index), old(Cur()))
        case Bad(e) => error == Some(e)
        case Next(i, c) => error.None? && Reached(Next(i, c))
      ensures fresh(Nodes() - old(Nodes()))
    {
      match chars[index]
      case '(' => ParseStartNested(); error := None;
      case ')' => error := ParseEndNested();
      case '\'' => error := ParseLeaf();
      case ',' => error := ParseLogical();
      case _ => error := Some(UnexpectedChar);
    }
  }

  /** Parsing a string from scratch. */
  method CreateFilterQuery(filter: string) returns (error: Option<Error>, tree: FilterQuery?, ghost nodes: set<FilterQuery>)
    ensures match FilterSpec.Parse(filter)
      case Rejected(e) => error == Some(e)
      case Parsed(t) => error.None? && tree != null && Represents(tree, t, nodes) && fresh(nodes)
  {
    var parser := new Parser(filter);
    error, tree := parser.Parse();
    nodes := parser.Nodes();
  }
}
