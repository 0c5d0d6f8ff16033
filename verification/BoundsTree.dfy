/** The spatial tree that assigns draw orders, with its vector of nodes edited in place. */
module BoundsTreeModel {
  import opened Basics
  import opened Geometry
  import opened DrawOrder
  import opened TreeShape
  import opened TreeInsert

  /** The children worth visiting: those whose subtree can still improve on `found`. */
  function Improving(nodes: seq<Node>, children: seq<nat>, found: nat): (r: seq<nat>)
    requires forall j :: 0 <= j < |children| ==> children[j] < |nodes|
    ensures forall x :: x in r <==> x in children && nodes[x].maxOrder > found
    ensures Distinct(children) ==> Distinct(r)
  {
    if children == [] then []
    else
      var rest := Improving(nodes, children[..|children| - 1], found);
      var x := children[|children| - 1];
      if nodes[x].maxOrder > found then rest + [x] else rest
  }

  /** The state of a search: `stack` still has to be visited, `done` has been. */
  ghost predicate Frontier(root: nat, c: Cover, stack: seq<nat>, done: set<nat>) {
    && |c.parent| == |c.below|
    && Distinct(stack)
    && (forall x | x in stack :: x !in done && Entered(root, c, x, done))
    && (forall x | x in done :: Entered(root, c, x, done))
  }

  ghost predicate Entered(root: nat, c: Cover, x: nat, done: set<nat>) {
    && x < |c.parent|
    && (x == root || (c.parent[x].Some? && c.parent[x].value in done))
  }

  ghost predicate IsHit(h: seq<Entry>, query: Bounds, k: nat) {
    k < |h| && query.Intersects(h[k].bounds)
  }

  /** Everything that could still improve on `found` is below the stack. */
  ghost predicate Pending(h: seq<Entry>, c: Cover, query: Bounds, stack: seq<nat>, found: nat) {
    forall k: nat | IsHit(h, query, k) && h[k].order > found :: exists x :: x in stack && IsBelow(c, k, x)
  }

  ghost predicate FoundOk(h: seq<Entry>, query: Bounds, found: nat) {
    found == 0 || exists k: nat :: IsHit(h, query, k) && h[k].order == found
  }

  /** Popping `x` is right when it holds no improving hit: both prunings. */
  lemma PendingPrune(h: seq<Entry>, nodes: seq<Node>, c: Cover, query: Bounds, stack: seq<nat>, x: nat, found: nat)
    requires x < |nodes| == |c.below| == |c.parent| && NodeOk(h, nodes, c, x)
    requires Pending(h, c, query, stack + [x], found)
    requires nodes[x].maxOrder <= found || !query.Intersects(nodes[x].bounds)
    ensures Pending(h, c, query, stack, found)
  {
    hide Bounds.Intersects, Bounds.Covers;
    forall k: nat | IsHit(h, query, k) && h[k].order > found ensures exists y :: y in stack && IsBelow(c, k, y) {
      var y :| y in stack + [x] && IsBelow(c, k, y);
      if y == x {
        IntersectsCover(query, nodes[x].bounds, h[k].bounds);
      }
    }
  }

  lemma PendingLeaf(h: seq<Entry>, nodes: seq<Node>, c: Cover, query: Bounds, stack: seq<nat>, x: nat, found: nat)
    requires x < |nodes| == |c.below| == |c.parent| && NodeOk(h, nodes, c, x)
    requires Pending(h, c, query, stack + [x], found) && FoundOk(h, query, found)
    requires nodes[x].kind.Leaf? && query.Intersects(nodes[x].bounds)
    ensures Pending(h, c, query, stack, Max(found, nodes[x].maxOrder))
    ensures FoundOk(h, query, Max(found, nodes[x].maxOrder))
  {
    var best := Max(found, nodes[x].maxOrder);
    forall k: nat | IsHit(h, query, k) && h[k].order > best
      ensures exists y :: y in stack && IsBelow(c, k, y)
    {
      var y :| y in stack + [x] && IsBelow(c, k, y);
      assert !IsBelow(c, k, x);
    }
    var k := LeafPosition(h, nodes, c, x);
    assert IsHit(h, query, k);
  }

  /** The one entry below a leaf is that leaf's own. */
  lemma LeafPosition(h: seq<Entry>, nodes: seq<Node>, c: Cover, x: nat) returns (k: nat)
    requires x < |nodes| == |c.below| == |c.parent| && NodeOk(h, nodes, c, x) && nodes[x].kind.Leaf?
    ensures c.below[x] == {k} && k < |h|
    ensures h[k] == Entry(nodes[x].bounds, nodes[x].maxOrder)
  {
    k :| k in c.below[x] && h[k].order == nodes[x].maxOrder;
    assert |c.below[x] - {k}| == 0;
    assert CoversAll(h, c.below[x], h[k].bounds);
    assert h[k].bounds.Covers(nodes[x].bounds) && nodes[x].bounds.Covers(h[k].bounds);
  }

  lemma ChildAbove(h: seq<Entry>, nodes: seq<Node>, c: Cover, x: nat, k: nat) returns (z: nat)
    requires |nodes| == |c.below| == |c.parent| && (forall i :: 0 <= i < |nodes| ==> NodeOk(h, nodes, c, i))
    requires x < |nodes| && nodes[x].kind.Internal? && IsBelow(c, k, x)
    ensures z in nodes[x].kind.children && IsBelow(c, k, z) && k < |h| && h[k].order <= nodes[z].maxOrder
  {
    assert NodeOk(h, nodes, c, x);
    z :| z in nodes[x].kind.children && IsBelow(c, k, z);
    assert NodeOk(h, nodes, c, z);
  }

  lemma PendingExpand(
    h: seq<Entry>, nodes: seq<Node>, c: Cover, query: Bounds, stack: seq<nat>, x: nat, found: nat, kids: seq<nat>)
    requires |nodes| == |c.below| == |c.parent| && (forall i :: 0 <= i < |nodes| ==> NodeOk(h, nodes, c, i))
    requires x < |nodes| && nodes[x].kind.Internal?
    requires Pending(h, c, query, stack + [x], found)
    requires forall y | y in nodes[x].kind.children :: y < |nodes| && (y in kids || nodes[y].maxOrder <= found)
    ensures Pending(h, c, query, stack + kids, found)
  {
    forall k: nat | IsHit(h, query, k) && h[k].order > found
      ensures exists y :: y in stack + kids && IsBelow(c, k, y)
    {
      var y :| y in stack + [x] && IsBelow(c, k, y);
      if y in stack {
        assert y in stack + kids;
      } else {
        assert y == x;
        var z := ChildAbove(h, nodes, c, x, k);
        assert z in kids;
        assert z in stack + kids;
      }
    }
  }

  lemma FrontierPop(root: nat, c: Cover, stack: seq<nat>, x: nat, done: set<nat>)
    requires Frontier(root, c, stack + [x], done)
    ensures Frontier(root, c, stack, done + {x}) && x !in done
  {
    var longer := stack + [x];
    assert longer[|stack|] == x;
    forall y | y in stack ensures y in longer && y != x {
      var i :| 0 <= i < |stack| && stack[i] == y;
      assert longer[i] == y;
    }
    assert forall i, j :: 0 <= i < j < |stack| ==> longer[i] == stack[i] && longer[j] == stack[j];
  }

  lemma FrontierPush(root: nat, c: Cover, stack: seq<nat>, kids: seq<nat>, x: nat, done: set<nat>)
    requires Frontier(root, c, stack, done + {x}) && x !in done
    requires root < |c.parent| && c.parent[root] == None
    requires forall y | y in stack :: Entered(root, c, y, done)
    requires forall y | y in done + {x} :: Entered(root, c, y, done)
    requires Distinct(kids) && forall y | y in kids :: y < |c.parent| && c.parent[y] == Some(x)
    ensures Frontier(root, c, stack + kids, done + {x})
  {
    var longer := stack + kids;
    forall y | y in kids ensures y !in stack && y !in done + {x} && Entered(root, c, y, done + {x}) {
      assert y != root;
    }
    forall i, j | 0 <= i < j < |longer| ensures longer[i] != longer[j] {
      assert i < |stack| ==> longer[i] in stack;
      assert j >= |stack| ==> longer[j] in kids;
      if i >= |stack| {
        assert longer[i] == kids[i - |stack|] && longer[j] == kids[j - |stack|];
      } else if j < |stack| {
        assert longer[i] == stack[i] && longer[j] == stack[j];
      }
    }
  }

  /** Fewer nodes are done than there are, as long as one is not. */
  lemma DoneBelow(done: set<nat>, x: nat, n: nat)
    requires x !in done && x < n && forall y | y in done :: y < n
    ensures |done| < n
  {
    IndicesSize(done + {x}, n);
  }

  lemma {:induction false} IndicesSize(s: set<nat>, n: nat)
    requires forall y | y in s :: y < n
    ensures |s| <= n
  {
    if n > 0 {
      IndicesSize(s - {n - 1}, n - 1);
    } else {
      assert s == {};
    }
  }

  ghost predicate Searching(
    h: seq<Entry>, root: nat, c: Cover, query: Bounds, stack: seq<nat>, done: set<nat>, found: nat)
  {
    && Frontier(root, c, stack, done)
    && Pending(h, c, query, stack, found)
    && FoundOk(h, query, found)
  }

  lemma SearchStarts(h: seq<Entry>, nodes: seq<Node>, root: nat, c: Cover, query: Bounds)
    requires TreeOk(h, nodes, root, c)
    ensures Searching(h, root, c, query, [root], {}, 0)
  {
    forall k: nat | IsHit(h, query, k)
      ensures exists x :: x in [root] && IsBelow(c, k, x)
    {
      assert root in [root] && IsBelow(c, k, root);
    }
  }

  lemma SearchPops(
    h: seq<Entry>, root: nat, c: Cover, query: Bounds, stack: seq<nat>, x: nat, done: set<nat>, found: nat)
    requires Searching(h, root, c, query, stack + [x], done, found)
    ensures x < |c.below| && x !in done && |done| < |c.below|
  {
    assert x in stack + [x];
    FrontierPop(root, c, stack, x, done);
    DoneBelow(done, x, |c.below|);
  }

  lemma SearchSkips(
    h: seq<Entry>, nodes: seq<Node>, root: nat, c: Cover, query: Bounds, stack: seq<nat>, x: nat, done: set<nat>,
    found: nat)
    requires TreeOk(h, nodes, root, c) && x < |nodes|
    requires Searching(h, root, c, query, stack + [x], done, found)
    requires nodes[x].maxOrder <= found || !query.Intersects(nodes[x].bounds)
    ensures Searching(h, root, c, query, stack, done + {x}, found)
  {
    FrontierPop(root, c, stack, x, done);
    PendingPrune(h, nodes, c, query, stack, x, found);
  }

  lemma SearchTakesLeaf(
    h: seq<Entry>, nodes: seq<Node>, root: nat, c: Cover, query: Bounds, stack: seq<nat>, x: nat, done: set<nat>,
    found: nat)
    requires TreeOk(h, nodes, root, c) && x < |nodes|
    requires Searching(h, root, c, query, stack + [x], done, found)
    requires nodes[x].kind.Leaf? && query.Intersects(nodes[x].bounds)
    ensures Searching(h, root, c, query, stack, done + {x}, Max(found, nodes[x].kind.order))
  {
    FrontierPop(root, c, stack, x, done);
    assert NodeOk(h, nodes, c, x);
    PendingLeaf(h, nodes, c, query, stack, x, found);
  }

  lemma ChildrenInRange(h: seq<Entry>, nodes: seq<Node>, c: Cover, x: nat)
    requires x < |nodes| == |c.below| == |c.parent| && NodeOk(h, nodes, c, x) && nodes[x].kind.Internal?
    ensures Distinct(nodes[x].kind.children)
    ensures forall j :: 0 <= j < |nodes[x].kind.children| ==> nodes[x].kind.children[j] < |nodes|
  {
    forall j | 0 <= j < |nodes[x].kind.children| ensures nodes[x].kind.children[j] < |nodes| {
      assert MemberOk(c, x, nodes[x].kind.children[j]);
    }
  }

  lemma InternalHasChildren(h: seq<Entry>, nodes: seq<Node>, root: nat, c: Cover, x: nat)
    requires TreeOk(h, nodes, root, c) && x < |nodes| && nodes[x].kind.Internal?
    ensures x < |c.below| && nodes[x].kind.children != []
    ensures forall j :: 0 <= j < |nodes[x].kind.children| ==> nodes[x].kind.children[j] < |nodes|
  {
    hide Exclusive, Exhaustive, Summarizes;
    ChildrenInRange(h, nodes, c, x);
  }

  lemma SearchEnds(h: seq<Entry>, root: nat, c: Cover, query: Bounds, done: set<nat>, found: nat)
    requires Searching(h, root, c, query, [], done, found)
    ensures Scan(h, query) == found
  {
    forall k: nat | IsHit(h, query, k) ensures h[k].order <= found {
    }
    ScanIs(h, query, found);
  }

  lemma SearchExpands(
    h: seq<Entry>, nodes: seq<Node>, root: nat, c: Cover, query: Bounds, stack: seq<nat>, x: nat, done: set<nat>,
    found: nat, kids: seq<nat>)
    requires TreeOk(h, nodes, root, c)
    requires Searching(h, root, c, query, stack + [x], done, found)
    requires x < |nodes| && nodes[x].kind.Internal?
    requires Distinct(kids)
    requires forall j :: 0 <= j < |nodes[x].kind.children| ==> nodes[x].kind.children[j] < |nodes|
    requires forall y :: y in kids <==> y in nodes[x].kind.children && nodes[y].maxOrder > found
    ensures Searching(h, root, c, query, stack + kids, done + {x}, found)
  {
    PendingExpand(h, nodes, c, query, stack, x, found, kids);
    assert x in stack + [x] && Entered(root, c, x, done);
    forall y | y in stack ensures Entered(root, c, y, done) {
      assert y in stack + [x];
    }
    FrontierPop(root, c, stack, x, done);
    assert ParentOk(nodes, root, c, root) && NodeOk(h, nodes, c, x);
    forall y | y in kids ensures y < |c.parent| && c.parent[y] == Some(x) {
      assert MemberOk(c, x, y);
    }
    FrontierPush(root, c, stack, kids, x, done);
  }

  class BoundsTree {
    var nodes: seq<Node>
    var root: Option<nat>
    var maxLeaf: Option<nat>
    var insertPath: seq<nat>
    var searchStack: seq<nat>

    /** The rectangles inserted since the last clear, with the orders they were given. */
    ghost var history: seq<Entry>
    ghost var cover: Cover

    ghost predicate Valid()
      reads this
    {
      && Ordered(history)
      && match root
         case None => nodes == [] && history == [] && maxLeaf == None && cover == Cover([], [])
         case Some(r) => TreeOk(history, nodes, r, cover) && MaxLeafOk(history, nodes, maxLeaf)
    }

    constructor ()
      ensures Valid() && history == []
    {
      nodes, root, maxLeaf, insertPath, searchStack := [], None, None, [], [];
      history, cover := [], Cover([], []);
    }

    method Clear()
      modifies this
      ensures Valid() && history == []
    {
      nodes, root, maxLeaf, insertPath, searchStack := [], None, None, [], [];
      history, cover := [], Cover([], []);
    }

    method FindMaxOrdering(query: Bounds) returns (found: nat)
      requires Valid()
      modifies this`searchStack
      ensures found == Scan(history, query)
    {
      if root == None {
        return 0;
      }
      if maxLeaf.Some? {
        var maxNode := nodes[maxLeaf.value];
        if query.Intersects(maxNode.bounds) {
          ghost var k := LeafPosition(history, nodes, cover, maxLeaf.value);
          ScanIs(history, query, maxNode.maxOrder);
          return maxNode.maxOrder;
        }
      }
      found := SearchTree(root.value, query);
    }

    /** The slow path: a pruned depth-first search from the root. */
    method SearchTree(rootIdx: nat, query: Bounds) returns (found: nat)
      requires TreeOk(history, nodes, rootIdx, cover)
      modifies this`searchStack
      ensures found == Scan(history, query)
    {
      searchStack := [rootIdx];
      found := 0;
      ghost var done: set<nat> := {};
      SearchStarts(history, nodes, rootIdx, cover, query);
      while searchStack != []
        invariant Searching(history, rootIdx, cover, query, searchStack, done, found)
        decreases |nodes| - |done|
      {
        var x := searchStack[|searchStack| - 1];
        var stack := searchStack[..|searchStack| - 1];
        assert searchStack == stack + [x];
        SearchPops(history, rootIdx, cover, query, stack, x, done, found);
        if nodes[x].maxOrder <= found || !query.Intersects(nodes[x].bounds) {
          SearchSkips(history, nodes, rootIdx, cover, query, stack, x, done, found);
          searchStack := stack;
        } else {
          match nodes[x].kind {
            case Leaf(order) =>
              SearchTakesLeaf(history, nodes, rootIdx, cover, query, stack, x, done, found);
              found := Max(found, order);
              searchStack := stack;
            case Internal(children) =>
              ChildrenInRange(history, nodes, cover, x);
              var kids := Improving(nodes, children, found);
              SearchExpands(history, nodes, rootIdx, cover, query, stack, x, done, found, kids);
              searchStack := stack + kids;
          }
        }
        done := done + {x};
      }
      SearchEnds(history, rootIdx, cover, query, done, found);
    }

    /** Inserts a rectangle and returns the order it is given: one more than the highest
        order among the earlier rectangles it intersects. */
    method Insert(b: Bounds) returns (order: nat)
      requires Valid()
      modifies this
      ensures Valid()
      ensures order == Scan(old(history), b) + 1
      ensures history == old(history) + [Entry(b, order)]
    {
      hide TreeOk, Ordered, Scan;
      var found := FindMaxOrdering(b);
      order := found + 1;
      OrderedExtend(history, b);
      ghost var h, ns := history, nodes;
      var leaf := InsertLeaf(b, order);
      if maxLeaf == None || nodes[maxLeaf.value].maxOrder < order {
        maxLeaf := Some(leaf);
      }
      assert MaxLeafOk(history, nodes, maxLeaf) by {
        assert forall k :: 0 <= k < |h| ==> history[k] == h[k];
      }
    }

    /** Whether the fields other than the history's orders make up a tree, or nothing. */
    ghost predicate Shaped()
      reads this
    {
      match root
      case None => nodes == [] && history == [] && cover == Cover([], [])
      case Some(r) => TreeOk(history, nodes, r, cover)
    }

    method InsertLeaf(b: Bounds, order: nat) returns (leaf: nat)
      requires Shaped()
      modifies this`nodes, this`root, this`insertPath, this`history, this`cover
      ensures root.Some? && Shaped()
      ensures history == old(history) + [Entry(b, order)]
      ensures leaf == |old(nodes)| < |nodes| && nodes[leaf] == Node(b, order, Leaf(order))
      ensures LeavesKept(old(nodes), nodes)
    {
      leaf := |nodes|;
      if root == None {
        nodes := nodes + [Node(b, order, Leaf(order))];
        root := Some(leaf);
        history, cover := [Entry(b, order)], Cover([{0}], [None]);
        SingletonTree(Entry(b, order));
        return;
      }
      var rootIdx := root.value;
      ghost var h, c := history, cover;
      if nodes[rootIdx].kind.Leaf? {
        PairTree(history, nodes, rootIdx, cover, Entry(b, order));
        var newRoot := Pair(nodes[rootIdx], rootIdx, leaf, b, order);
        nodes := nodes + [Node(b, order, Leaf(order))];
        root := Some(|nodes|);
        nodes := nodes + [newRoot];
        assert nodes == old(nodes) + [Node(b, order, Leaf(order)), newRoot];
        history, cover := history + [Entry(b, order)], Cover([{0}, {1}, {0, 1}], [Some(2), Some(2), None]);
        return;
      }
      var pos := Descend(rootIdx, b);
      AttachLeaf(rootIdx, b, order, pos);
      PropagateUp(rootIdx, b, order);
    }

    /** Follows the cheapest children down to a node whose cheapest child is a leaf, and
        returns the position of that child. */
    method Descend(rootIdx: nat, b: Bounds) returns (pos: nat)
      requires TreeOk(history, nodes, rootIdx, cover) && nodes[rootIdx].kind.Internal?
      modifies this`insertPath
      ensures IsPath(nodes, rootIdx, insertPath)
      ensures var cur := insertPath[|insertPath| - 1];
              && CheapestChild(nodes, nodes[cur].kind.children, b, pos)
              && nodes[nodes[cur].kind.children[pos]].kind.Leaf?
    {
      assert rootIdx < |nodes|;
      hide TreeOk, CheapestChild;
      insertPath := [rootIdx];
      var current := rootIdx;
      InternalHasChildren(history, nodes, rootIdx, cover, current);
      pos := BestChild(nodes[current].kind.children, b);
      while nodes[nodes[current].kind.children[pos]].kind.Internal?
        invariant current < |cover.below| && current < |nodes| && nodes[current].kind.Internal?
        invariant pos < |nodes[current].kind.children| && nodes[current].kind.children[pos] < |nodes|
        invariant IsPath(nodes, rootIdx, insertPath) && current == insertPath[|insertPath| - 1]
        invariant CheapestChild(nodes, nodes[current].kind.children, b, pos)
        decreases |cover.below[current]|
      {
        var next := nodes[current].kind.children[pos];
        assert IsChild(nodes, current, next);
        DescentShrinks(history, nodes, rootIdx, cover, insertPath, next);
        insertPath := insertPath + [next];
        current := next;
        InternalHasChildren(history, nodes, rootIdx, cover, current);
        pos := BestChild(nodes[current].kind.children, b);
      }
    }

    /** The first child whose bounds grow least, by half perimeter, when `b` is added. */
    method BestChild(children: seq<nat>, b: Bounds) returns (best: nat)
      requires children != [] && forall j :: 0 <= j < |children| ==> children[j] < |nodes|
      ensures best < |children| && CheapestChild(nodes, children, b, best)
    {
      best := 0;
      var bestCost := b.Union(nodes[children[0]].bounds).HalfPerimeter();
      for pos := 1 to |children|
        invariant best < pos && bestCost == Cost(nodes, children, b, best)
        invariant forall j :: 0 <= j < pos ==> bestCost <= Cost(nodes, children, b, j)
        invariant forall j :: 0 <= j < best ==> bestCost < Cost(nodes, children, b, j)
      {
        var cost := b.Union(nodes[children[pos]].bounds).HalfPerimeter();
        if cost < bestCost {
          bestCost := cost;
          best := pos;
        }
      }
    }

    /** Hangs the new leaf below the last node of `insertPath`: next to the leaf at `pos` if
        there is room, or else below a fresh inner node that takes that leaf's place. */
    method AttachLeaf(rootIdx: nat, b: Bounds, order: nat, pos: nat)
      requires TreeOk(history, nodes, rootIdx, cover) && IsPath(nodes, rootIdx, insertPath)
      requires var children := nodes[insertPath[|insertPath| - 1]].kind.children;
               pos < |children| && children[pos] < |nodes| && nodes[children[pos]].kind.Leaf?
      modifies this`nodes, this`history, this`cover
      ensures history == old(history) + [Entry(b, order)]
      ensures |old(nodes)| < |nodes| <= |old(nodes)| + 2 && nodes[|old(nodes)|] == Node(b, order, Leaf(order))
      ensures LeavesKept(old(nodes), nodes)
      ensures ReadyToPropagate(history, nodes, rootIdx, cover, insertPath, b, order)
    {
      hide TreeOk, ReadyToPropagate, WithLeaf, WithInner;
      var leaf := |nodes|;
      var cur := insertPath[|insertPath| - 1];
      var node := nodes[cur];
      var children := node.kind.children;
      ghost var e := Entry(b, order);
      if |children| < MAX_CHILDREN {
        ghost var c := DirectReady(history, nodes, rootIdx, cover, insertPath, e);
        children := WithLeaf(node, leaf, order);
        nodes := nodes + [Node(b, order, Leaf(order))];
        nodes := nodes[cur := Node(node.bounds.Union(b), Max(node.maxOrder, order), Internal(children))];
        history, cover := history + [e], c;
      } else {
        ghost var c := SplitReady(history, nodes, rootIdx, cover, insertPath, e, pos);
        ghost var target := SplitNodes(nodes, cur, pos, e);
        var best := children[pos];
        var inner := Pair(nodes[best], best, leaf, b, order);
        nodes := nodes + [Node(b, order, Leaf(order))];
        nodes := nodes + [inner];
        children := WithInner(node, pos, leaf + 1, inner.maxOrder);
        nodes := nodes[cur := node.(kind := Internal(children))];
        assert nodes == target;
        history, cover := history + [e], c;
      }
    }

    /** The upward pass: widens every node on the path, raises its maximum, and moves the
        child that was just updated to the end where the maximum came from there. */
    method PropagateUp(rootIdx: nat, b: Bounds, order: nat)
      requires insertPath != [] && insertPath[0] == rootIdx
      requires ReadyToPropagate(history, nodes, rootIdx, cover, insertPath, b, order)
      requires |nodes| <= 2 * |history| - 1
      modifies this`nodes
      ensures TreeOk(history, nodes, rootIdx, cover)
      ensures |nodes| == |old(nodes)| && LeavesKept(old(nodes), nodes)
    {
      hide TreeOk, Propagating, LastIsAhead, RootCovers, ParentOk, Propagated;
      ghost var start := StartOf(history, nodes, rootIdx, cover, insertPath, b, order);
      ghost var before := nodes;
      var updatedChild: Option<nat> := None;
      var j := |insertPath|;
      while j > 0
        invariant 0 <= j <= |insertPath| && |nodes| == |before| && LeavesKept(before, nodes)
        invariant updatedChild == if j == |insertPath| then None else Some(insertPath[j])
        invariant Upward(history, start, nodes, rootIdx, cover, insertPath, j, b, order)
      {
        UpwardStep(history, start, nodes, rootIdx, cover, insertPath, j, b, order);
        j := j - 1;
        var idx := insertPath[j];
        nodes := nodes[idx := Propagated(nodes[idx], b, order, updatedChild)];
        updatedChild := Some(idx);
      }
      UpwardEnds(history, start, nodes, rootIdx, cover, insertPath, b, order);
    }
  }

  /** The cached leaf exists and carries the highest order of all. */
  ghost predicate MaxLeafOk(h: seq<Entry>, nodes: seq<Node>, maxLeaf: Option<nat>) {
    && maxLeaf.Some? && maxLeaf.value < |nodes| && nodes[maxLeaf.value].kind.Leaf?
    && forall k :: 0 <= k < |h| ==> h[k].order <= nodes[maxLeaf.value].maxOrder
  }

  ghost predicate LeavesKept(before: seq<Node>, after: seq<Node>) {
    && |before| <= |after|
    && forall i :: 0 <= i < |before| && before[i].kind.Leaf? ==> after[i] == before[i]
  }

  function Cost(nodes: seq<Node>, children: seq<nat>, b: Bounds, j: nat): real
    requires j < |children| && children[j] < |nodes|
  {
    b.Union(nodes[children[j]].bounds).HalfPerimeter()
  }

  ghost predicate CheapestChild(nodes: seq<Node>, children: seq<nat>, b: Bounds, pos: nat) {
    && pos < |children| && (forall j :: 0 <= j < |children| ==> children[j] < |nodes|)
    && (forall j :: 0 <= j < |children| ==> Cost(nodes, children, b, pos) <= Cost(nodes, children, b, j))
    && (forall j :: 0 <= j < pos ==> Cost(nodes, children, b, pos) < Cost(nodes, children, b, j))
  }

  // ---- The upward pass ----

  /** Everything that holds while the upward pass stands at `j`; before its first step the
      last path node may already be up to date. */
  ghost predicate Upward(
    h: seq<Entry>, start: seq<Node>, nodes: seq<Node>, root: nat, c: Cover, path: seq<nat>, j: nat, b: Bounds,
    order: nat)
  {
    && j <= |path| && |nodes| == |c.below| == |c.parent|
    && RootCovers(h, c, root)
    && (forall i :: 0 <= i < |nodes| ==> ParentOk(nodes, root, c, i))
    && (Propagating(h, start, nodes, c, path, j, b, order) ||
       (j == |path| > 0 && LastIsAhead(h, start, nodes, c, path, b, order)))
  }

  /** The last path node was refreshed when the leaf was pushed, and refreshing is idempotent. */
  ghost predicate LastIsAhead(
    h: seq<Entry>, start: seq<Node>, nodes: seq<Node>, c: Cover, path: seq<nat>, b: Bounds, order: nat)
    requires path != []
  {
    && Propagating(h, start, nodes, c, path, |path| - 1, b, order)
    && nodes[path[|path| - 1]].kind.Internal?
    && Propagated(nodes[path[|path| - 1]], b, order, None) == nodes[path[|path| - 1]]
  }

  ghost predicate ReadyToPropagate(
    h: seq<Entry>, nodes: seq<Node>, root: nat, c: Cover, path: seq<nat>, b: Bounds, order: nat)
  {
    exists start :: Upward(h, start, nodes, root, c, path, |path|, b, order)
  }

  lemma StartOf(
    h: seq<Entry>, nodes: seq<Node>, root: nat, c: Cover, path: seq<nat>, b: Bounds, order: nat)
    returns (start: seq<Node>)
    requires ReadyToPropagate(h, nodes, root, c, path, b, order)
    ensures Upward(h, start, nodes, root, c, path, |path|, b, order)
  {
    start :| Upward(h, start, nodes, root, c, path, |path|, b, order);
  }

  lemma UpwardStep(
    h: seq<Entry>, start: seq<Node>, nodes: seq<Node>, root: nat, c: Cover, path: seq<nat>, j: nat, b: Bounds,
    order: nat)
    requires 0 < j && Upward(h, start, nodes, root, c, path, j, b, order)
    ensures path[j - 1] < |nodes| && nodes[path[j - 1]].kind.Internal?
    ensures var child := if j == |path| then None else Some(path[j]);
            var nodes' := nodes[path[j - 1] := Propagated(nodes[path[j - 1]], b, order, child)];
            Upward(h, start, nodes', root, c, path, j - 1, b, order)
  {
    var p := path[j - 1];
    var child := if j == |path| then None else Some(path[j]);
    if Propagating(h, start, nodes, c, path, j, b, order) {
      var nodes' := nodes[p := Propagated(nodes[p], b, order, child)];
      PropagateStep(h, start, nodes, c, path, j, b, order);
      forall i | 0 <= i < |nodes| ensures ParentOk(nodes', root, c, i) {
        assert ParentOk(nodes, root, c, i);
      }
      assert Awaiting(h, start, c, path, j - 1, b, order);
    } else {
      assert nodes[p := Propagated(nodes[p], b, order, child)] == nodes;
    }
  }

  lemma UpwardEnds(
    h: seq<Entry>, start: seq<Node>, nodes: seq<Node>, root: nat, c: Cover, path: seq<nat>, b: Bounds, order: nat)
    requires path != [] && Upward(h, start, nodes, root, c, path, 0, b, order) && |nodes| <= 2 * |h| - 1
    ensures TreeOk(h, nodes, root, c)
  {
    assert path[..0] == [];
  }

  /** Pushing the leaf and refreshing its new parent at once is the first step of the pass. */
  lemma DirectFirstStep(h: seq<Entry>, nodes: seq<Node>, root: nat, c: Cover, path: seq<nat>, e: Entry)
    requires path != [] && path[|path| - 1] < |nodes| && nodes[path[|path| - 1]].kind.Internal?
    requires nodes[path[|path| - 1]].kind.children != [] && |nodes| + 1 == |c.below| == |c.parent|
    requires var cur := path[|path| - 1];
             var children' := WithLeaf(nodes[cur], |nodes|, e.order);
             var nodes' := nodes[cur := nodes[cur].(kind := Internal(children'))] +
               [Node(e.bounds, e.order, Leaf(e.order))];
             && Propagating(h + [e], nodes', nodes', c, path, |path|, e.bounds, e.order)
             && (forall i :: 0 <= i < |nodes'| ==> ParentOk(nodes', root, c, i))
             && RootCovers(h + [e], c, root)
    ensures var cur := path[|path| - 1];
            var n := nodes[cur];
            var pushed := Node(n.bounds.Union(e.bounds), Max(n.maxOrder, e.order),
              Internal(WithLeaf(n, |nodes|, e.order)));
            var nodes' := (nodes + [Node(e.bounds, e.order, Leaf(e.order))])[cur := pushed];
            ReadyToPropagate(h + [e], nodes', root, c, path, e.bounds, e.order)
  {
    hide Propagating, WithLeaf, RootCovers;
    var cur := path[|path| - 1];
    var n := nodes[cur];
    var leaf := Node(e.bounds, e.order, Leaf(e.order));
    var children' := WithLeaf(n, |nodes|, e.order);
    var start := nodes[cur := n.(kind := Internal(children'))] + [leaf];
    PropagateStep(h + [e], start, start, c, path, |path|, e.bounds, e.order);
    var pushed := Node(n.bounds.Union(e.bounds), Max(n.maxOrder, e.order), Internal(children'));
    assert Propagated(start[cur], e.bounds, e.order, None) == pushed;
    var nodes' := (nodes + [leaf])[cur := pushed];
    assert nodes' == start[cur := pushed];
    forall i | 0 <= i < |nodes'| ensures ParentOk(nodes', root, c, i) {
      assert ParentOk(start, root, c, i);
    }
    assert LastIsAhead(h + [e], start, nodes', c, path, e.bounds, e.order);
    assert Upward(h + [e], start, nodes', root, c, path, |path|, e.bounds, e.order);
  }

  lemma DirectReady(h: seq<Entry>, nodes: seq<Node>, root: nat, c: Cover, path: seq<nat>, e: Entry)
    returns (c': Cover)
    requires TreeOk(h, nodes, root, c) && IsPath(nodes, root, path)
    requires 0 < |nodes[path[|path| - 1]].kind.children| < MAX_CHILDREN
    ensures var cur := path[|path| - 1];
            var n := nodes[cur];
            var pushed := Node(n.bounds.Union(e.bounds), Max(n.maxOrder, e.order),
              Internal(WithLeaf(n, |nodes|, e.order)));
            var nodes' := (nodes + [Node(e.bounds, e.order, Leaf(e.order))])[cur := pushed];
            ReadyToPropagate(h + [e], nodes', root, c', path, e.bounds, e.order)
  {
    hide TreeOk, ReadyToPropagate, WithLeaf, Awaiting, NodeOk;
    c' := DirectAttach(h, nodes, root, c, path, e);
    DirectFirstStep(h, nodes, root, c', path, e);
  }

  lemma SplitReady(h: seq<Entry>, nodes: seq<Node>, root: nat, c: Cover, path: seq<nat>, e: Entry, pos: nat)
    returns (c': Cover)
    requires TreeOk(h, nodes, root, c) && IsPath(nodes, root, path)
    requires pos < |nodes[path[|path| - 1]].kind.children|
    requires var best := nodes[path[|path| - 1]].kind.children[pos]; best < |nodes| && nodes[best].kind.Leaf?
    ensures ReadyToPropagate(h + [e], SplitNodes(nodes, path[|path| - 1], pos, e), root, c', path, e.bounds, e.order)
  {
    hide TreeOk, SplitNodes, Awaiting, NodeOk, LastIsAhead;
    c' := SplitAttach(h, nodes, root, c, path, e, pos);
    var nodes' := SplitNodes(nodes, path[|path| - 1], pos, e);
    assert Upward(h + [e], nodes', nodes', root, c', path, |path|, e.bounds, e.order);
  }

  // ---- The first two insertions ----

  lemma SingletonTree(e: Entry)
    ensures TreeOk([e], [Node(e.bounds, e.order, Leaf(e.order))], 0, Cover([{0}], [None]))
  {
  }

  /** A tree whose root is a leaf holds that leaf alone; the second insertion puts a root above. */
  lemma PairTree(h: seq<Entry>, nodes: seq<Node>, root: nat, c: Cover, e: Entry)
    requires TreeOk(h, nodes, root, c) && nodes[root].kind.Leaf?
    ensures |h| == 1 && |nodes| == 1 && root == 0
    ensures TreeOk(h + [e],
                   nodes + [Node(e.bounds, e.order, Leaf(e.order)), Pair(nodes[0], 0, 1, e.bounds, e.order)], 2,
                   Cover([{0}, {1}, {0, 1}], [Some(2), Some(2), None]))
  {
    hide FamilyOk;
    var k := LeafPosition(h, nodes, c, root);
    assert 0 in c.below[root];
    assert 1 !in c.below[root];
    var leaf := Node(e.bounds, e.order, Leaf(e.order));
    var nodes' := nodes + [leaf, Pair(nodes[0], 0, 1, e.bounds, e.order)];
    var c' := Cover([{0}, {1}, {0, 1}], [Some(2), Some(2), None]);
    assert {0} + {1} == {0, 1};
    PairOk(h, nodes', c', 0, {0}, 1, 2, e);
    SummaryGrows(h, {0}, nodes[0], e);
    assert NodeOk(h + [e], nodes', c', 0);
  }

  lemma DescentShrinks(h: seq<Entry>, nodes: seq<Node>, root: nat, c: Cover, path: seq<nat>, next: nat)
    requires TreeOk(h, nodes, root, c) && IsPath(nodes, root, path)
    requires IsChild(nodes, path[|path| - 1], next) && next < |nodes| && nodes[next].kind.Internal?
    ensures IsPath(nodes, root, path + [next])
    ensures |c.below[next]| < |c.below[path[|path| - 1]]|
  {
    hide Exclusive, Exhaustive, Summarizes;
    var cur := path[|path| - 1];
    assert NodeOk(h, nodes, c, cur);
    ChildIsSmaller(c, cur, nodes[cur].kind.children, next);
  }

  // ---- Whole runs ----

  datatype Op = InsertOp(bounds: Bounds) | ClearOp

  /** The history after a run, by linear scans only. */
  function HistoryAfter(ops: seq<Op>): seq<Entry> {
    if ops == [] then []
    else
      var h := HistoryAfter(ops[..|ops| - 1]);
      match ops[|ops| - 1]
      case InsertOp(b) => h + [Entry(b, Scan(h, b) + 1)]
      case ClearOp => []
  }

  function ExpectedAt(ops: seq<Op>, i: nat): Option<nat>
    requires i < |ops|
  {
    match ops[i]
    case InsertOp(b) => Some(Scan(HistoryAfter(ops[..i]), b) + 1)
    case ClearOp => None
  }

  /** For every run of inserts and clears, the tree returns exactly the orders of the linear scan. */
  method Run(ops: seq<Op>) returns (orders: seq<Option<nat>>)
    ensures |orders| == |ops|
    ensures forall i :: 0 <= i < |ops| ==> orders[i] == ExpectedAt(ops, i)
  {
    hide TreeOk, MaxLeafOk, Ordered, Scan;
    var tree := new BoundsTree();
    orders := [];
    for i := 0 to |ops|
      invariant tree.Valid() && fresh(tree) && tree.history == HistoryAfter(ops[..i])
      invariant |orders| == i && forall j :: 0 <= j < i ==> orders[j] == ExpectedAt(ops, j)
    {
      assert ops[..i + 1][..i] == ops[..i];
      match ops[i] {
        case InsertOp(b) =>
          var order := tree.Insert(b);
          orders := orders + [Some(order)];
        case ClearOp =>
          tree.Clear();
          orders := orders + [None];
      }
    }
  }

  /** Each inserted rectangle sits in a leaf that the child links lead to from the root. */
  lemma {:induction false} EntryReachable(
    h: seq<Entry>, nodes: seq<Node>, root: nat, c: Cover, i: nat, k: nat) returns (trail: seq<nat>)
    requires TreeOk(h, nodes, root, c) && i < |nodes| && k in c.below[i]
    ensures trail != [] && trail[0] == i
    ensures forall a :: 0 < a < |trail| ==> IsChild(nodes, trail[a - 1], trail[a])
    ensures var leaf := trail[|trail| - 1];
            && leaf < |nodes| && k < |h| && nodes[leaf] == Node(h[k].bounds, h[k].order, Leaf(h[k].order))
    decreases |c.below[i]|
  {
    hide Exclusive, Exhaustive, Summarizes;
    assert NodeOk(h, nodes, c, i);
    if nodes[i].kind.Leaf? {
      var k' := LeafPosition(h, nodes, c, i);
      trail := [i];
    } else {
      var z := ChildAbove(h, nodes, c, i, k);
      ChildIsSmaller(c, i, nodes[i].kind.children, z);
      var rest := EntryReachable(h, nodes, root, c, z, k);
      trail := [i] + rest;
      forall a | 0 < a < |trail| ensures IsChild(nodes, trail[a - 1], trail[a]) {
        assert a > 1 ==> IsChild(nodes, rest[a - 2], rest[a - 1]);
      }
    }
  }
}
