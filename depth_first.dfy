/**
 * `depthTraversalTree(root)`: a worklist `nodesToVisit`, initially `[root]`;
 * each pull takes the front node off, puts its children (in order) in front of
 * what is still pending, and yields the node.
 */
module DepthFirst {
  import opened Options
  import opened Trees

  /** The generator, suspended between two pulls. */
  class DepthTraversal {
    const root: Node
    var nodesToVisit: seq<Node>
    /** Nodes yielded so far. */
    ghost var emitted: seq<Node>

    /** What the generator still has to yield: the pre-orders of the pending nodes, in worklist order. */
    ghost function Remaining(): seq<Node>
      reads this
    {
      PreOrderForest(nodesToVisit)
    }

    /** Loop invariant of the worklist loop: yielded nodes followed by what is pending make up the pre-order. */
    ghost predicate Valid()
      reads this
    {
      emitted + Remaining() == PreOrder(root)
    }

    constructor (root: Node)
      ensures Valid()
      ensures this.root == root && nodesToVisit == [root] && emitted == []
    {
      this.root := root;
      nodesToVisit := [root];
      emitted := [];
      new;
      assert PreOrderForest([root]) == PreOrder(root) + PreOrderForest([]);
    }

    /** One pull: the next node in depth-first order, or `None` once the worklist is empty (and on every later pull). */
    method Next() returns (node: Option<Node>)
      requires Valid()
      modifies this
      ensures Valid()
      ensures old(nodesToVisit) == [] ==> node == None && nodesToVisit == [] && emitted == old(emitted)
      ensures old(nodesToVisit) != [] ==>
        && node == Some(old(nodesToVisit)[0])
        && nodesToVisit == old(nodesToVisit)[0].children + old(nodesToVisit)[1..]
        && emitted == old(emitted) + [node.value]
      ensures node.None? <==> old(Remaining()) == []
      ensures node.Some? ==> node.value == old(Remaining())[0] && Remaining() == old(Remaining())[1..]
      ensures node.Some? ==> ForestSize(nodesToVisit) == old(ForestSize(nodesToVisit)) - 1
    {
      if nodesToVisit == [] {
        return None;
      }
      var currNode := nodesToVisit[0];
      var rest := nodesToVisit[1..];
      assert nodesToVisit == [currNode] + rest;
      PreOrderForestAppend([currNode], rest);
      assert PreOrderForest([currNode]) == PreOrder(currNode) + PreOrderForest([]);
      PreOrderForestAppend(currNode.children, rest);
      ForestSizeAppend(currNode.children, rest);
      nodesToVisit := currNode.children + rest;
      emitted := emitted + [currNode];
      node := Some(currNode);
    }
  }

  /** Pulls `depthTraversalTree(root)` until it is done: every node once, in pre-order, root first. */
  method Traverse(root: Node) returns (nodes: seq<Node>)
    ensures nodes == PreOrder(root)
    ensures |nodes| == Size(root) && nodes[0] == root
  {
    var walk := new DepthTraversal(root);
    nodes := [];
    while true
      invariant walk.Valid() && walk.root == root
      invariant nodes == walk.emitted
      decreases |walk.Remaining()|
    {
      var next := walk.Next();
      if next.None? {
        break;
      }
      nodes := nodes + [next.value];
    }
    PreOrderLength(root);
  }

  /** The tree of the documentation example: 1 has children 2, 6, 7; 2 has 3, 4; 4 has 5; 7 has 8. */
  function ExampleTree(): Node
  {
    Node(1, [
      Node(2, [Node(3, []), Node(4, [Node(5, [])])]),
      Node(6, []),
      Node(7, [Node(8, [])])])
  }

  lemma PreOrderForestOfOne(x: Node)
    ensures PreOrderForest([x]) == PreOrder(x)
  {
    assert [x][1..] == [];
  }

  lemma PreOrderForestOfTwo(x: Node, y: Node)
    ensures PreOrderForest([x, y]) == PreOrder(x) + PreOrder(y)
  {
    assert [x, y][1..] == [y];
    PreOrderForestOfOne(y);
  }

  lemma PreOrderForestOfThree(x: Node, y: Node, z: Node)
    ensures PreOrderForest([x, y, z]) == PreOrder(x) + PreOrder(y) + PreOrder(z)
  {
    assert [x, y, z][1..] == [y, z];
    PreOrderForestOfTwo(y, z);
  }

  /** The pre-order of any tree shaped like the example, whatever its ids. */
  lemma ExampleShapePreOrder(a: int, b: int, c: int, d: int, e: int, f: int, g: int, h: int)
    ensures Ids(PreOrder(Node(a, [Node(b, [Node(c, []), Node(d, [Node(e, [])])]), Node(f, []), Node(g, [Node(h, [])])])))
      == [a, b, c, d, e, f, g, h]
  {
    var n3, n5, n6, n8 := Node(c, []), Node(e, []), Node(f, []), Node(h, []);
    var n4, n7 := Node(d, [n5]), Node(g, [n8]);
    var n2 := Node(b, [n3, n4]);
    var n1 := Node(a, [n2, n6, n7]);
    assert PreOrder(n3) == [n3] && PreOrder(n5) == [n5] && PreOrder(n6) == [n6] && PreOrder(n8) == [n8];
    PreOrderForestOfOne(n5);
    assert PreOrder(n4) == [n4, n5];
    PreOrderForestOfOne(n8);
    assert PreOrder(n7) == [n7, n8];
    PreOrderForestOfTwo(n3, n4);
    assert PreOrder(n2) == [n2, n3, n4, n5];
    PreOrderForestOfThree(n2, n6, n7);
    var all := [n1, n2, n3, n4, n5, n6, n7, n8];
    assert PreOrder(n1) == all;
    IdsOfEight(n1, n2, n3, n4, n5, n6, n7, n8);
  }

  method Example() returns (ids: seq<int>)
    ensures ids == [1, 2, 3, 4, 5, 6, 7, 8]
  {
    var nodes := Traverse(ExampleTree());
    ExampleShapePreOrder(1, 2, 3, 4, 5, 6, 7, 8);
    ids := Ids(nodes);
  }
}
