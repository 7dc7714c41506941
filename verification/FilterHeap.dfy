/** The parser as it runs: a tree of heap nodes with parent pointers, rebuilt in place. Rotating a
    node leaves its former children with a stale parent pointer, so only the nodes on the spine
    from the root to the cursor are required to have a right one. */
module FilterHeap {
  import opened FilterText
  import opened FilterSpec

  class FilterQuery {
    var value: Val
    var parent: FilterQuery?
    var leftChild: FilterQuery?
    var rightChild: FilterQuery?

    constructor (value: Val, parent: FilterQuery?, leftChild: FilterQuery?, rightChild: FilterQuery?)
      ensures this.value == value && this.parent == parent
      ensures this.leftChild == leftChild && this.rightChild == rightChild
    {
      this.value, this.parent, this.leftChild, this.rightChild := value, parent, leftChild, rightChild;
    }

    predicate IsNested() reads this { value == Nested }

    predicate IsRoot() reads this { parent == null }

    method AddChild(value: Val) returns (child: FilterQuery)
      modifies this
      ensures fresh(child) && child.value == value && child.parent == this
      ensures child.leftChild == null && child.rightChild == null
      ensures this.value == old(this.value) && parent == old(parent)
      ensures if old(leftChild) == null then leftChild == child && rightChild == old(rightChild)
              else leftChild == old(leftChild) && rightChild == child
    {
      child := new FilterQuery(value, this, null, null);
      if leftChild == null {
        leftChild := child;
      } else {
        rightChild := child;
      }
    }

    /** The children move below a new node, but keep this node as their parent. */
    method RotateLeft(value: Val)
      modifies this
      ensures this.value == value && parent == old(parent) && rightChild == null
      ensures fresh(leftChild) && leftChild.value == old(this.value) && leftChild.parent == this
      ensures leftChild.leftChild == old(leftChild) && leftChild.rightChild == old(rightChild)
      ensures old(leftChild) != null && old(leftChild) != this ==> old(leftChild).parent == old(leftChild.parent)
    {
      var moved := new FilterQuery(this.value, this, leftChild, rightChild);
      this.value := value;
      leftChild := moved;
      rightChild := null;
    }

    method FindAncestor(ghost spine: seq<FilterQuery>) returns (ancestor: FilterQuery)
      requires Rooted(spine) && spine[|spine| - 1] == this
      ensures ancestor == spine[AncestorIndex(spine)]
    {
      ancestor := this;
      ghost var k := |spine| - 1;
      assert spine[..|spine|] == spine;
      while !ancestor.IsRoot()
        invariant 0 <= k < |spine| && ancestor == spine[k]
        invariant AncestorIndex(spine) == AncestorIndex(spine[..k + 1])
        decreases k
      {
        assert spine[..k + 1][..k] == spine[..k];
        ancestor := ancestor.parent;
        k := k - 1;
        if ancestor.IsNested() {
          return;
        }
      }
    }
  }

  // ----- The spine -----

  /** Parent pointers along the spine, up to the root. */
  ghost predicate Rooted(spine: seq<FilterQuery>)
    reads spine
  {
    && spine != [] && spine[0].parent == null
    && forall k :: 1 <= k < |spine| ==> spine[k].parent == spine[k - 1]
  }

  ghost function AncestorIndex(spine: seq<FilterQuery>): (j: nat)
    requires spine != []
    reads spine
    ensures j < |spine|
  {
    var n := |spine| - 1;
    if n == 0 then 0
    else if spine[n - 1].value == Nested then n - 1
    else AncestorIndex(spine[..n])
  }

  /** What the nodes stand for: the contexts along the spine, and the trees of all nodes off it. */
  datatype Path = Path(spine: seq<FilterQuery>, ctxs: seq<Ctx>, shape: map<FilterQuery, Tree>)

  ghost predicate Known(n: FilterQuery?, shape: map<FilterQuery, Tree>) { n == null || n in shape }

  ghost function TreeAt(n: FilterQuery?, shape: map<FilterQuery, Tree>): Tree {
    if n == null || n !in shape then Nil else shape[n]
  }

  ghost function TreeOf(n: FilterQuery, shape: map<FilterQuery, Tree>): Tree
    reads n
  {
    Node(n.value, TreeAt(n.leftChild, shape), TreeAt(n.rightChild, shape))
  }

  /** Nodes off the spine are never written again. */
  ghost predicate Frozen(shape: map<FilterQuery, Tree>)
    reads shape.Keys
  {
    forall n :: n in shape ==> shape[n] == TreeOf(n, shape) && Known(n.leftChild, shape) && Known(n.rightChild, shape)
  }

  ghost predicate Link(p: FilterQuery, c: FilterQuery, up: Ctx, ctx: Ctx, shape: map<FilterQuery, Tree>)
    reads p, c`parent
  {
    && c.parent == p
    && if p.leftChild == c
       then Known(p.rightChild, shape) && ctx == InLeft(p.value, TreeAt(p.rightChild, shape), up)
       else p.rightChild == c && Known(p.leftChild, shape) && ctx == InRight(p.value, TreeAt(p.leftChild, shape), up)
  }

  /** Everything but what the cursor's own node holds. */
  ghost predicate Above(p: Path)
    reads set k | 0 <= k < |p.spine| - 1 :: p.spine[k]
    reads if p.spine == [] then {} else {p.spine[|p.spine| - 1]}`parent
    reads p.shape.Keys
  {
    var n := |p.spine|;
    && n > 0 && |p.ctxs| == n && p.spine[0].parent == null && p.ctxs[0] == Top
    && (forall i, j :: 0 <= i < j < n ==> p.spine[i] != p.spine[j])
    && (forall i :: 0 <= i < n ==> p.spine[i] !in p.shape)
    && (forall k :: 1 <= k < n ==> Link(p.spine[k - 1], p.spine[k], p.ctxs[k - 1], p.ctxs[k], p.shape))
    && Frozen(p.shape)
  }

  ghost predicate Shaped(p: Path)
    reads p.spine, p.shape.Keys
  {
    && Above(p)
    && Known(p.spine[|p.spine| - 1].leftChild, p.shape) && Known(p.spine[|p.spine| - 1].rightChild, p.shape)
  }

  ghost function CursorOf(p: Path): Cursor
    requires p.spine != [] && |p.ctxs| == |p.spine|
    reads p.spine
  {
    var at := p.spine[|p.spine| - 1];
    Cursor(at.value, TreeAt(at.leftChild, p.shape), TreeAt(at.rightChild, p.shape), p.ctxs[|p.ctxs| - 1])
  }

  ghost function NodesOf(p: Path): set<FilterQuery> { (set n | n in p.spine) + p.shape.Keys }

  lemma TopIsRoot(p: Path)
    requires Shaped(p)
    ensures Rooted(p.spine) && |p.ctxs| == |p.spine|
    ensures CursorOf(p).ctx.Top? <==> |p.spine| == 1
    ensures CursorOf(p).ctx.Top? <==> p.spine[|p.spine| - 1].parent == null
  {
    var n := |p.spine|;
    if n > 1 {
      assert Link(p.spine[n - 2], p.spine[n - 1], p.ctxs[n - 2], p.ctxs[n - 1], p.shape);
    }
  }

  /** Writing the cursor's node again leaves the nodes above it as they were; a child hung below it
      can then become the cursor. */
  lemma Descend(p: Path, child: FilterQuery) returns (q: Path)
    requires Above(p) && child !in NodesOf(p) && child.leftChild == null && child.rightChild == null
    requires var at := p.spine[|p.spine| - 1];
      && child.parent == at
      && if at.leftChild == child then Known(at.rightChild, p.shape)
         else at.rightChild == child && Known(at.leftChild, p.shape)
    ensures Shaped(q) && q.spine == p.spine + [child] && NodesOf(q) == NodesOf(p) + {child}
    ensures var at, up := p.spine[|p.spine| - 1], p.ctxs[|p.spine| - 1];
      CursorOf(q) == Cursor(child.value, Nil, Nil,
        if at.leftChild == child then InLeft(at.value, TreeAt(at.rightChild, p.shape), up)
        else InRight(at.value, TreeAt(at.leftChild, p.shape), up))
  {
    var n := |p.spine|;
    var at, up := p.spine[n - 1], p.ctxs[n - 1];
    var ctx := if at.leftChild == child then InLeft(at.value, TreeAt(at.rightChild, p.shape), up)
               else InRight(at.value, TreeAt(at.leftChild, p.shape), up);
    q := Path(p.spine + [child], p.ctxs + [ctx], p.shape);
    assert forall i :: 0 <= i < n ==> p.spine[i] in NodesOf(p);
    forall k | 1 <= k < n + 1 ensures Link(q.spine[k - 1], q.spine[k], q.ctxs[k - 1], q.ctxs[k], q.shape) {
      assert k < n ==> Link(p.spine[k - 1], p.spine[k], p.ctxs[k - 1], p.ctxs[k], p.shape);
    }
  }

  /** A new node that stays off the spine. */
  lemma Freeze(p: Path, added: FilterQuery) returns (q: Path)
    requires Above(p) && added !in NodesOf(p)
    requires Known(added.leftChild, p.shape) && Known(added.rightChild, p.shape)
    ensures q == Path(p.spine, p.ctxs, p.shape[added := TreeOf(added, p.shape)]) && Above(q)
    ensures NodesOf(q) == NodesOf(p) + {added}
    ensures forall n :: Known(n, p.shape) ==> Known(n, q.shape) && TreeAt(n, q.shape) == TreeAt(n, p.shape)
  {
    q := Path(p.spine, p.ctxs, p.shape[added := TreeOf(added, p.shape)]);
    assert forall i :: 0 <= i < |p.spine| ==> p.spine[i] in NodesOf(p);
    assert added !in p.shape;
    forall k | 1 <= k < |p.spine| ensures Link(q.spine[k - 1], q.spine[k], q.ctxs[k - 1], q.ctxs[k], q.shape) {
      assert Link(p.spine[k - 1], p.spine[k], p.ctxs[k - 1], p.ctxs[k], p.shape);
    }
  }

  /** Leaving the last node of the spine freezes it, and the cursor moves up. */
  lemma Pop(p: Path) returns (q: Path)
    requires Shaped(p) && |p.spine| > 1
    ensures Shaped(q) && q.spine == p.spine[..|p.spine| - 1] && NodesOf(q) == NodesOf(p)
    ensures !CursorOf(p).ctx.Top? && CursorOf(q) == Up(CursorOf(p))
  {
    var n := |p.spine| - 1;
    var last := p.spine[n];
    q := Path(p.spine[..n], p.ctxs[..n], p.shape[last := TreeOf(last, p.shape)]);
    assert Link(p.spine[n - 1], last, p.ctxs[n - 1], p.ctxs[n], p.shape);
    forall k | 1 <= k < n ensures Link(q.spine[k - 1], q.spine[k], q.ctxs[k - 1], q.ctxs[k], q.shape) {
      assert Link(p.spine[k - 1], p.spine[k], p.ctxs[k - 1], p.ctxs[k], p.shape);
    }
    assert p.spine == q.spine + [last];
    assert forall m :: m in NodesOf(p) <==> m in NodesOf(q);
  }

  lemma {:induction false} PopToAncestor(p: Path) returns (q: Path)
    requires Shaped(p)
    ensures Shaped(q) && q.spine == p.spine[..AncestorIndex(p.spine) + 1] && NodesOf(q) == NodesOf(p)
    ensures CursorOf(q) == FindAncestor(CursorOf(p))
    decreases |p.spine|
  {
    hide Shaped, NodesOf, Up, TreeAt, Rooted;
    TopIsRoot(p);
    if |p.spine| == 1 {
      q := p;
      assert p.spine[..1] == p.spine;
    } else {
      var up := Pop(p);
      q := up;
      if up.spine[|up.spine| - 1].value != Nested {
        q := PopToAncestor(up);
        assert p.spine[..|p.spine| - 1][..AncestorIndex(up.spine) + 1] == p.spine[..AncestorIndex(up.spine) + 1];
      }
    }
  }

  // ----- Trees -----

  /** The nodes reachable from n, all inside nodes, are the tree t. */
  ghost predicate Represents(n: FilterQuery?, t: Tree, nodes: set<FilterQuery>)
    reads nodes
    decreases t
  {
    match t
    case Nil => n == null
    case Node(value, left, right) =>
      && n != null && n in nodes && n.value == value
      && Represents(n.leftChild, left, nodes) && Represents(n.rightChild, right, nodes)
  }

  lemma {:induction false} FrozenRepresents(n: FilterQuery?, shape: map<FilterQuery, Tree>, nodes: set<FilterQuery>)
    requires Frozen(shape) && Known(n, shape) && shape.Keys <= nodes
    ensures Represents(n, TreeAt(n, shape), nodes)
    decreases TreeAt(n, shape)
  {
    if n != null {
      FrozenRepresents(n.leftChild, shape, nodes);
      FrozenRepresents(n.rightChild, shape, nodes);
    }
  }
}
