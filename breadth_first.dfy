/**
 * `breadthTraversalTree(root)`: the same worklist as the depth-first walk, but
 * the children of the node taken off the front are appended at the BACK, so
 * the worklist is a first-in first-out queue.
 */
module BreadthFirst {
  import opened Options
  import opened Trees
  import opened Sequences

  /** Everything the worklist loop yields, starting from the queue `queue`. */
  ghost function Drain(queue: seq<Node>): (r: seq<Node>)
    ensures |r| == ForestSize(queue)
    decreases ForestSize(queue)
  {
    if |queue| == 0 then []
    else
      QueueShrinks(queue);
      [queue[0]] + Drain(queue[1..] + queue[0].children)
  }

  /** Taking one node off the queue and appending its children loses exactly that node. */
  lemma QueueShrinks(queue: seq<Node>)
    requires queue != []
    ensures ForestSize(queue[1..] + queue[0].children) == ForestSize(queue) - 1
  {
    ForestSizeAppend(queue[1..], queue[0].children);
  }

  /**
   * A queue holding what is left of one level (`rest`) followed by the children
   * of the part of that level already taken off (`done`): the loop first yields
   * `rest`, then continues from the children of the whole level.
   */
  lemma {:induction false} DrainLevel(rest: seq<Node>, done: seq<Node>)
    ensures Drain(rest + Children(done)) == rest + Drain(Children(done + rest))
    decreases |rest|
  {
    if |rest| == 0 {
      assert done + rest == done && rest + Children(done) == Children(done);
    } else {
      var x, rest', level := rest[0], rest[1..], Children(done);
      var q := rest + level;
      assert q[0] == x && q[1..] == rest' + level;
      ChildrenAppend(done, [x]);
      ChildrenOfOne(x);
      var q' := rest' + Children(done + [x]);
      assert q[1..] + x.children == q';
      assert Drain(q) == [x] + Drain(q');
      DrainLevel(rest', done + [x]);
      HeadRest(rest);
      AppendAssoc(done, [x], rest');
      var tail := Drain(Children(done + rest));
      assert Drain(q') == rest' + tail;
      AppendAssoc([x], rest', tail);
    }
  }

  /** The worklist loop yields the level order of its starting queue. */
  lemma {:induction false} DrainIsLevelOrder(ts: seq<Node>)
    ensures Drain(ts) == LevelOrder(ts)
    decreases ForestSize(ts)
  {
    if ts != [] {
      DrainLevel(ts, []);
      assert ts + Children([]) == ts && [] + ts == ts;
      ChildrenShrink(ts);
      DrainIsLevelOrder(Children(ts));
    }
  }

  /** The generator, suspended between two pulls. */
  class BreadthTraversal {
    const root: Node
    var nodesToVisit: seq<Node>
    /** Nodes yielded so far. */
    ghost var emitted: seq<Node>

    ghost function Remaining(): seq<Node>
      reads this
    {
      Drain(nodesToVisit)
    }

    ghost predicate Valid()
      reads this
    {
      emitted + Remaining() == Drain([root])
    }

    constructor (root: Node)
      ensures Valid()
      ensures this.root == root && nodesToVisit == [root] && emitted == []
    {
      this.root := root;
      nodesToVisit := [root];
      emitted := [];
    }

    /** One pull: the next node in breadth-first order, or `None` once the queue is empty (and on every later pull). */
    method Next() returns (node: Option<Node>)
      requires Valid()
      modifies this
      ensures Valid()
      ensures old(nodesToVisit) == [] ==> node == None && nodesToVisit == [] && emitted == old(emitted)
      ensures old(nodesToVisit) != [] ==>
        && node == Some(old(nodesToVisit)[0])
        && nodesToVisit == old(nodesToVisit)[1..] + old(nodesToVisit)[0].children
        && emitted == old(emitted) + [node.value]
      ensures node.None? <==> old(Remaining()) == []
      ensures node.Some? ==> node.value == old(Remaining())[0] && Remaining() == old(Remaining())[1..]
    {
      if nodesToVisit == [] {
        return None;
      }
      var currNode := nodesToVisit[0];
      nodesToVisit := nodesToVisit[1..] + currNode.children;
      emitted := emitted + [currNode];
      node := Some(currNode);
    }
  }

  /**
   * Pulls `breadthTraversalTree(root)` until it is done: the tree level by
   * level (all nodes of depth 0, then of depth 1, ...), each level from left to
   * right; every node exactly once; the root first.
   */
  method Traverse(root: Node) returns (nodes: seq<Node>)
    ensures nodes == LevelOrder([root]) == Levels(root, 0)
    ensures multiset(nodes) == multiset(PreOrder(root))
    ensures |nodes| == Size(root) && nodes[0] == root
  {
    var walk := new BreadthTraversal(root);
    nodes := [];
    while true
      invariant walk.Valid() && walk.root == root
      invariant nodes == walk.emitted
      decreases |walk.Remaining()|
    {
      var next := walk.Next();
      if next.None? {
        break;
      }
      nodes := nodes + [next.value];
    }
    DrainIsLevelOrder([root]);
    AtDepthForestZero([root]);
    LevelOrderIsLevels(root, 0);
    LevelOrderPermutesPreOrder([root]);
    assert PreOrderForest([root]) == PreOrder(root) + PreOrderForest([]);
    PreOrderLength(root);
    assert [root][1..] == [] && PreOrderForest([root]) == PreOrder(root);
    assert |nodes| == |multiset(nodes)| == |multiset(PreOrder(root))| == |PreOrder(root)|;
  }

  /** The tree of the documentation example: 1 has children 2, 3, 4; 2 has 5, 6; 4 has 7; 6 has 8. */
  function ExampleTree(): Node
  {
    Node(1, [
      Node(2, [Node(5, []), Node(6, [Node(8, [])])]),
      Node(3, []),
      Node(4, [Node(7, [])])])
  }

  lemma ChildrenOfOne(x: Node)
    ensures Children([x]) == x.children
  {
    assert [x][1..] == [];
  }

  lemma ChildrenOfThree(x: Node, y: Node, z: Node)
    ensures Children([x, y, z]) == x.children + y.children + z.children
  {
    assert [x, y, z][1..] == [y, z] && [y, z][1..] == [z];
    ChildrenOfOne(z);
    assert Children([y, z]) == y.children + z.children;
  }

  lemma LevelStep(ts: seq<Node>, next: seq<Node>)
    requires ts != [] && Children(ts) == next
    ensures LevelOrder(ts) == ts + LevelOrder(next)
  {
  }

  /** The level order of any tree shaped like the example, whatever its ids. */
  lemma ExampleShapeLevels(a: int, b: int, c: int, d: int, e: int, f: int, g: int, h: int)
    ensures Ids(LevelOrder([Node(a, [Node(b, [Node(e, []), Node(f, [Node(h, [])])]), Node(c, []), Node(d, [Node(g, [])])])]))
      == [a, b, c, d, e, f, g, h]
  {
    var n5, n7, n8 := Node(e, []), Node(g, []), Node(h, []);
    var n3, n6 := Node(c, []), Node(f, [n8]);
    var n2, n4 := Node(b, [n5, n6]), Node(d, [n7]);
    var n1 := Node(a, [n2, n3, n4]);
    ChildrenOfOne(n1);
    ChildrenOfThree(n2, n3, n4);
    assert [n5, n6] + [] + [n7] == [n5, n6, n7];
    ChildrenOfThree(n5, n6, n7);
    assert [] + [n8] + [] == [n8];
    ChildrenOfOne(n8);
    LevelStep([n1], [n2, n3, n4]);
    LevelStep([n2, n3, n4], [n5, n6, n7]);
    LevelStep([n5, n6, n7], [n8]);
    LevelStep([n8], []);
    var all := [n1, n2, n3, n4, n5, n6, n7, n8];
    assert LevelOrder([n1]) == all;
    IdsOfEight(n1, n2, n3, n4, n5, n6, n7, n8);
  }

  lemma ExampleLevels()
    ensures Ids(LevelOrder([ExampleTree()])) == [1, 2, 3, 4, 5, 6, 7, 8]
  {
    ExampleShapeLevels(1, 2, 3, 4, 5, 6, 7, 8);
  }

  method Example() returns (ids: seq<int>)
    ensures ids == [1, 2, 3, 4, 5, 6, 7, 8]
  {
    var nodes := Traverse(ExampleTree());
    ExampleLevels();
    ids := Ids(nodes);
  }
}
