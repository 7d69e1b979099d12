/**
 * Immutable trees as the two traversal generators see them, and the reference
 * definitions their outputs are checked against: pre-order, size, the nodes at
 * a given depth, and level order.
 *
 * A JavaScript node without a `children` property is a node whose `children`
 * sequence is empty here.
 */
module Trees {

  datatype Node = Node(id: int, children: seq<Node>)

  /** Number of nodes of a tree. */
  function Size(t: Node): (n: nat)
    ensures n >= 1
  {
    1 + ForestSize(t.children)
  }

  /** Number of nodes of a sequence of trees. */
  function ForestSize(ts: seq<Node>): nat
  {
    if |ts| == 0 then 0 else Size(ts[0]) + ForestSize(ts[1..])
  }

  /** Pre-order: the node itself, then the pre-orders of its children from left to right. */
  function PreOrder(t: Node): seq<Node>
  {
    [t] + PreOrderForest(t.children)
  }

  function PreOrderForest(ts: seq<Node>): seq<Node>
  {
    if |ts| == 0 then [] else PreOrder(ts[0]) + PreOrderForest(ts[1..])
  }

  /** All children of the nodes of `ts`, in order. */
  function Children(ts: seq<Node>): seq<Node>
  {
    if |ts| == 0 then [] else ts[0].children + Children(ts[1..])
  }

  /** Nodes at depth `d` below `t` (the root has depth 0), from left to right. */
  function AtDepth(t: Node, d: nat): seq<Node>
  {
    if d == 0 then [t] else AtDepthForest(t.children, d - 1)
  }

  function AtDepthForest(ts: seq<Node>, d: nat): seq<Node>
  {
    if |ts| == 0 then [] else AtDepth(ts[0], d) + AtDepthForest(ts[1..], d)
  }

  /** Length of the longest path from `t` down to a leaf. */
  function Height(t: Node): nat
  {
    if |t.children| == 0 then 0 else 1 + ForestHeight(t.children)
  }

  function ForestHeight(ts: seq<Node>): nat
  {
    if |ts| == 0 then 0
    else
      var h, r := Height(ts[0]), ForestHeight(ts[1..]);
      if h < r then r else h
  }

  /** Level order of a forest: the forest itself, then the level order of all its children. */
  function LevelOrder(ts: seq<Node>): seq<Node>
    decreases ForestSize(ts)
  {
    if |ts| == 0 then []
    else
      ChildrenShrink(ts);
      ts + LevelOrder(Children(ts))
  }

  /** Level-by-level listing of a tree: depth 0, depth 1, ..., down to depth `Height(t)`. */
  function Levels(t: Node, d: nat): seq<Node>
    decreases Height(t) + 1 - d
  {
    if d > Height(t) then [] else AtDepth(t, d) + Levels(t, d + 1)
  }

  function Ids(ns: seq<Node>): (r: seq<int>)
    ensures |r| == |ns|
    ensures forall i | 0 <= i < |ns| :: r[i] == ns[i].id
  {
    if |ns| == 0 then [] else [ns[0].id] + Ids(ns[1..])
  }

  lemma IdsOfEight(n1: Node, n2: Node, n3: Node, n4: Node, n5: Node, n6: Node, n7: Node, n8: Node)
    ensures Ids([n1, n2, n3, n4, n5, n6, n7, n8]) == [n1.id, n2.id, n3.id, n4.id, n5.id, n6.id, n7.id, n8.id]
  {
  }

  // ---------------------------------------------------------------------------
  // Concatenation laws

  lemma {:induction false} ForestSizeAppend(a: seq<Node>, b: seq<Node>)
    ensures ForestSize(a + b) == ForestSize(a) + ForestSize(b)
  {
    if |a| > 0 {
      assert (a + b)[1..] == a[1..] + b;
      ForestSizeAppend(a[1..], b);
    } else {
      assert a + b == b;
    }
  }

  lemma {:induction false} PreOrderForestAppend(a: seq<Node>, b: seq<Node>)
    ensures PreOrderForest(a + b) == PreOrderForest(a) + PreOrderForest(b)
  {
    if |a| > 0 {
      assert (a + b)[1..] == a[1..] + b;
      PreOrderForestAppend(a[1..], b);
    } else {
      assert a + b == b;
    }
  }

  lemma {:induction false} ChildrenAppend(a: seq<Node>, b: seq<Node>)
    ensures Children(a + b) == Children(a) + Children(b)
  {
    if |a| > 0 {
      assert (a + b)[1..] == a[1..] + b;
      ChildrenAppend(a[1..], b);
    } else {
      assert a + b == b;
    }
  }

  // ---------------------------------------------------------------------------
  // Sizes

  /** Taking the children of a non-empty forest loses exactly its roots. */
  lemma {:induction false} ChildrenShrink(ts: seq<Node>)
    ensures ForestSize(Children(ts)) == ForestSize(ts) - |ts|
    ensures ts != [] ==> ForestSize(Children(ts)) < ForestSize(ts)
  {
    if |ts| > 0 {
      ChildrenShrink(ts[1..]);
      ForestSizeAppend(ts[0].children, Children(ts[1..]));
      ForestShrinkBound(ts[1..]);
    }
  }

  lemma {:induction false} ForestShrinkBound(ts: seq<Node>)
    ensures ForestSize(ts) >= |ts|
  {
    if |ts| > 0 {
      ForestShrinkBound(ts[1..]);
    }
  }

  /** Pre-order lists every node exactly once: its length is the size of the tree. */
  lemma {:induction false} PreOrderLength(t: Node)
    ensures |PreOrder(t)| == Size(t)
  {
    PreOrderForestLength(t.children);
  }

  lemma {:induction false} PreOrderForestLength(ts: seq<Node>)
    ensures |PreOrderForest(ts)| == ForestSize(ts)
  {
    if |ts| > 0 {
      PreOrderLength(ts[0]);
      PreOrderForestLength(ts[1..]);
    }
  }

  lemma {:induction false} PreOrderStartsWithRoot(t: Node)
    ensures PreOrder(t) != [] && PreOrder(t)[0] == t
  {
  }

  // ---------------------------------------------------------------------------
  // Level order

  /** The children of the depth-`d` nodes of a tree are its depth-`d + 1` nodes. */
  lemma {:induction false} ChildrenAtDepth(t: Node, d: nat)
    ensures Children(AtDepth(t, d)) == AtDepth(t, d + 1)
    decreases t, 1
  {
    if d == 0 {
      assert Children([t]) == t.children + Children([]);
      AtDepthForestZero(t.children);
    } else {
      ChildrenAtDepthForest(t.children, d - 1);
    }
  }

  lemma {:induction false} ChildrenAtDepthForest(ts: seq<Node>, d: nat)
    ensures Children(AtDepthForest(ts, d)) == AtDepthForest(ts, d + 1)
    decreases ts, 0
  {
    if |ts| > 0 {
      ChildrenAtDepth(ts[0], d);
      ChildrenAtDepthForest(ts[1..], d);
      ChildrenAppend(AtDepth(ts[0], d), AtDepthForest(ts[1..], d));
    }
  }

  lemma {:induction false} AtDepthForestZero(ts: seq<Node>)
    ensures AtDepthForest(ts, 0) == ts
  {
    if |ts| > 0 {
      AtDepthForestZero(ts[1..]);
    }
  }

  /** Below the height of a forest there are no nodes. */
  lemma {:induction false} AtDepthBeyondHeight(ts: seq<Node>, d: nat)
    requires d > ForestHeight(ts)
    ensures AtDepthForest(ts, d) == []
  {
    if |ts| > 0 {
      var t := ts[0];
      assert d > Height(t);
      assert AtDepth(t, d) == AtDepthForest(t.children, d - 1);
      if |t.children| > 0 {
        AtDepthBeyondHeight(t.children, d - 1);
      }
      AtDepthBeyondHeight(ts[1..], d);
    }
  }

  /**
   * The level order of the forest of depth-`d` nodes of `t` is the tree listed
   * level by level from depth `d` on.
   */
  lemma {:induction false} LevelOrderIsLevels(t: Node, d: nat)
    ensures LevelOrder(AtDepthForest([t], d)) == Levels(t, d)
    decreases Height(t) + 1 - d
  {
    var level := AtDepthForest([t], d);
    assert level == AtDepth(t, d) + AtDepthForest([], d);
    if d > Height(t) {
      AtDepthBeyondHeight([t], d);
    } else {
      ChildrenAtDepthForest([t], d);
      LevelOrderIsLevels(t, d + 1);
      if level == [] {
        AtDepthNonEmpty(t, d);
      }
    }
  }

  /** Every depth up to the height holds at least one node. */
  lemma {:induction false} AtDepthNonEmpty(t: Node, d: nat)
    requires d <= Height(t)
    ensures AtDepth(t, d) != []
  {
    if d > 0 {
      ForestAtDepthNonEmpty(t.children, d - 1);
    }
  }

  lemma {:induction false} ForestAtDepthNonEmpty(ts: seq<Node>, d: nat)
    requires d <= ForestHeight(ts) && ts != []
    ensures AtDepthForest(ts, d) != []
  {
    if d <= Height(ts[0]) {
      AtDepthNonEmpty(ts[0], d);
    } else {
      ForestAtDepthNonEmpty(ts[1..], d);
    }
  }

  /** Pre-order and level order of a forest hold the same nodes, each as often. */
  lemma {:induction false} LevelOrderPermutesPreOrder(ts: seq<Node>)
    ensures multiset(LevelOrder(ts)) == multiset(PreOrderForest(ts))
    decreases ForestSize(ts)
  {
    if |ts| > 0 {
      ChildrenShrink(ts);
      LevelOrderPermutesPreOrder(Children(ts));
      PreOrderForestSplit(ts);
    }
  }

  /** Pre-order of a forest holds its roots and the pre-order of its children. */
  lemma {:induction false} PreOrderForestSplit(ts: seq<Node>)
    ensures multiset(PreOrderForest(ts)) == multiset(ts) + multiset(PreOrderForest(Children(ts)))
  {
    if |ts| > 0 {
      PreOrderForestSplit(ts[1..]);
      PreOrderForestAppend(ts[0].children, Children(ts[1..]));
      assert ts == [ts[0]] + ts[1..];
    }
  }
}
