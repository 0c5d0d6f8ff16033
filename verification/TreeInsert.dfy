/** Why attaching a leaf and passing the change up the path keeps the tree. */
module TreeInsert {
  import opened Basics
  import opened Geometry
  import opened DrawOrder
  import opened TreeShape

  // ---- How a family changes ----

  /** Nothing below `i` changed. */
  lemma FamilyKeep(c: Cover, c': Cover, i: nat, children: seq<nat>)
    requires i < |c.below| == |c.parent| && FamilyOk(c, i, children)
    requires |c.below| <= |c'.below| == |c'.parent| && c'.below[i] == c.below[i]
    requires forall x | x in children :: x < |c.below| && c'.below[x] == c.below[x] && c'.parent[x] == c.parent[x]
    ensures FamilyOk(c', i, children)
  {
    KeepExhaustive(c, c', i, children);
    KeepExclusive(c, c', children);
    forall x | x in children ensures MemberOk(c', i, x) { assert MemberOk(c, i, x); }
  }

  lemma KeepExhaustive(c: Cover, c': Cover, i: nat, children: seq<nat>)
    requires i < |c.below| <= |c'.below| && Exhaustive(c, i, children) && c'.below[i] == c.below[i]
    requires forall x | x in children :: x < |c.below| && c'.below[x] == c.below[x]
    ensures Exhaustive(c', i, children)
  {
  }

  lemma KeepExclusive(c: Cover, c': Cover, children: seq<nat>)
    requires |c.below| <= |c'.below| && Exclusive(c, children)
    requires forall x | x in children :: x < |c.below| && c'.below[x] == c.below[x]
    ensures Exclusive(c', children)
  {
    forall k, x, y | x in children && y in children && IsBelow(c', k, x) && IsBelow(c', k, y) ensures x == y {
      assert IsBelow(c, k, x) && IsBelow(c, k, y);
    }
  }

  /** The new position went below one child of `i`: `best` in the old family, `heir` in the
      new one, where it holds what `best` held and the new position.  `heir` is `best` itself
      on the way up, and a fresh inner node when a full node is split. */
  lemma FamilyReplace(c: Cover, c': Cover, i: nat, children: seq<nat>, pos: nat, heir: nat, pending: nat)
    requires i < |c.below| == |c.parent| && FamilyOk(c, i, children) && pos < |children|
    requires |c.below| <= |c'.below| == |c'.parent| && pending !in c.below[i] && heir < |c'.below|
    requires children[pos] < |c.below| && (heir == children[pos] || heir >= |c.below|)
    requires c'.below[i] == c.below[i] + {pending} && c'.below[heir] == c.below[children[pos]] + {pending}
    requires c'.parent[heir] == Some(i)
    requires forall x | x in children && x != children[pos] ::
               x < |c.below| && c'.below[x] == c.below[x] && c'.parent[x] == c.parent[x]
    ensures FamilyOk(c', i, children[pos := heir])
  {
    hide Exclusive, Exhaustive;
    var best := children[pos];
    var more := children[pos := heir];
    ReplacedMembers(children, pos, heir, |c.below|, c, i);
    assert best in children && MemberOk(c, i, best);
    forall x | x in children ensures pending !in c.below[x] {
      assert MemberOk(c, i, x);
    }
    forall x | x in more ensures MemberOk(c', i, x) {
      if x != heir { assert MemberOk(c, i, x); }
    }
    ReplacedExhaustive(c, c', i, children, more, best, heir, pending);
    ReplacedExclusive(c, c', children, more, best, heir, pending);
  }

  lemma ReplacedMembers(children: seq<nat>, pos: nat, heir: nat, n: nat, c: Cover, i: nat)
    requires pos < |children| && Distinct(children) && i < |c.below| == |c.parent| == n
    requires forall x | x in children :: MemberOk(c, i, x)
    requires heir == children[pos] || heir >= n
    ensures Distinct(children[pos := heir])
    ensures forall x :: x in children[pos := heir] <==> x == heir || (x in children && x != children[pos])
  {
    var more := children[pos := heir];
    assert more[pos] == heir;
    forall x | x in children && x != children[pos] ensures x in more {
      var j :| 0 <= j < |children| && children[j] == x;
      assert more[j] == x;
    }
    forall j | 0 <= j < |more| && j != pos ensures more[j] in children && more[j] != children[pos] {
      assert more[j] == children[j];
    }
  }

  lemma ReplacedExhaustive(
    c: Cover, c': Cover, i: nat, children: seq<nat>, more: seq<nat>, best: nat, heir: nat, pending: nat)
    requires i < |c.below| <= |c'.below| && Exhaustive(c, i, children)
    requires best < |c.below| && heir < |c'.below| && c'.below[heir] == c.below[best] + {pending}
    requires c'.below[i] == c.below[i] + {pending}
    requires forall x | x in children && x != best :: x < |c.below| && c'.below[x] == c.below[x]
    requires forall x :: x in more <==> x == heir || (x in children && x != best)
    ensures Exhaustive(c', i, more)
  {
  }

  lemma ReplacedExclusive(c: Cover, c': Cover, children: seq<nat>, more: seq<nat>, best: nat, heir: nat, pending: nat)
    requires |c.below| <= |c'.below| && Exclusive(c, children) && best in children
    requires best < |c.below| && heir < |c'.below| && c'.below[heir] == c.below[best] + {pending}
    requires forall x | x in children :: x < |c.below| && pending !in c.below[x]
    requires forall x | x in children && x != best :: c'.below[x] == c.below[x]
    requires forall x :: x in more <==> x == heir || (x in children && x != best)
    ensures Exclusive(c', more)
  {
    forall k, x, y | x in more && y in more && IsBelow(c', k, x) && IsBelow(c', k, y) ensures x == y {
      var x0 := if x == heir then best else x;
      var y0 := if y == heir then best else y;
      assert k != pending ==> IsBelow(c, k, x0) && IsBelow(c, k, y0);
    }
  }

  /** `leaf` joined the children of `i`. */
  lemma FamilyAdd(c: Cover, c': Cover, i: nat, children: seq<nat>, leaf: nat, pending: nat)
    requires i < |c.below| == |c.parent| && FamilyOk(c, i, children) && |children| < MAX_CHILDREN
    requires |c.below| == leaf < |c'.below| == |c'.parent| && pending !in c.below[i]
    requires c'.below[i] == c.below[i] + {pending} && c'.below[leaf] == {pending} && c'.parent[leaf] == Some(i)
    requires forall x | x in children :: x < |c.below| && c'.below[x] == c.below[x] && c'.parent[x] == c.parent[x]
    ensures FamilyOk(c', i, children + [leaf])
  {
    hide Exclusive, Exhaustive;
    var more := children + [leaf];
    forall x | x in more ensures MemberOk(c', i, x) && (x != leaf ==> pending !in c.below[x]) {
      if x != leaf { assert MemberOk(c, i, x); }
    }
    AddedExhaustive(c, c', i, children, leaf, pending);
    AddedExclusive(c, c', children, leaf, pending);
  }

  lemma AddedExhaustive(c: Cover, c': Cover, i: nat, children: seq<nat>, leaf: nat, pending: nat)
    requires i < |c.below| <= leaf < |c'.below| && Exhaustive(c, i, children)
    requires c'.below[i] == c.below[i] + {pending} && c'.below[leaf] == {pending}
    requires forall x | x in children :: x < |c.below| && c'.below[x] == c.below[x]
    ensures Exhaustive(c', i, children + [leaf])
  {
    forall k | k in c'.below[i] ensures exists x :: x in children + [leaf] && IsBelow(c', k, x) {
      if k == pending {
        assert leaf in children + [leaf] && IsBelow(c', k, leaf);
      } else {
        var x :| x in children && IsBelow(c, k, x);
        assert x in children + [leaf] && IsBelow(c', k, x);
      }
    }
  }

  lemma AddedExclusive(c: Cover, c': Cover, children: seq<nat>, leaf: nat, pending: nat)
    requires |c.below| <= leaf < |c'.below| && Exclusive(c, children) && c'.below[leaf] == {pending}
    requires forall x | x in children :: x < |c.below| && c'.below[x] == c.below[x] && pending !in c.below[x]
    ensures Exclusive(c', children + [leaf])
  {
    var more := children + [leaf];
    forall k, x, y | x in more && y in more && IsBelow(c', k, x) && IsBelow(c', k, y) ensures x == y {
      assert x == leaf <==> y == leaf;
      assert x != leaf ==> IsBelow(c, k, x) && IsBelow(c, k, y);
    }
  }

  lemma PairSwap(c: Cover, inner: nat, sibling: nat, leaf: nat)
    requires inner < |c.below| == |c.parent| && FamilyOk(c, inner, [sibling, leaf])
    ensures FamilyOk(c, inner, [leaf, sibling])
  {
  }

  /** A fresh inner node over an old node and the new leaf. */
  lemma FamilyPair(c: Cover, inner: nat, sibling: nat, leaf: nat, pending: nat)
    requires inner < |c.below| == |c.parent| && sibling < |c.below| && leaf < |c.below| && sibling != leaf
    requires c.below[leaf] == {pending} && c.below[sibling] != {} && pending !in c.below[sibling]
    requires c.below[inner] == c.below[sibling] + {pending}
    requires c.parent[sibling] == Some(inner) && c.parent[leaf] == Some(inner)
    ensures FamilyOk(c, inner, [sibling, leaf]) && FamilyOk(c, inner, [leaf, sibling])
  {
    var children := [sibling, leaf];
    assert Exhaustive(c, inner, children) by {
      forall k | k in c.below[inner] ensures exists x :: x in children && IsBelow(c, k, x) {
        var x := if k == pending then leaf else sibling;
        assert x in children && IsBelow(c, k, x);
      }
    }
    assert Exclusive(c, children);
    PairSwap(c, inner, sibling, leaf);
  }

  // ---- Passing the change up the path ----

  /** First position of `x`. */
  function IndexOf(s: seq<nat>, x: nat): (i: nat)
    requires x in s
    ensures i < |s| && s[i] == x
    ensures x !in s[..i]
  {
    if s[0] == x then 0 else 1 + IndexOf(s[1..], x)
  }

  /** One node of the upward pass; `child` is the node updated just before. */
  function Propagated(n: Node, b: Bounds, order: nat, child: Option<nat>): Node
  {
    var wider := n.(bounds := n.bounds.Union(b));
    if n.maxOrder < order then
      var higher := wider.(maxOrder := order);
      if child.Some? && n.kind.Internal? && child.value in n.kind.children then
        var children := n.kind.children;
        higher.(kind := Internal(Swap(children, IndexOf(children, child.value), |children| - 1)))
      else higher
    else wider
  }

  /** `path[a]` still awaits the upward pass. */
  ghost predicate Awaiting(h: seq<Entry>, nodes: seq<Node>, c: Cover, path: seq<nat>, a: nat, b: Bounds, order: nat)
    requires a < |path| && |nodes| == |c.below| == |c.parent|
  {
    var p := path[a];
    && p < |nodes| && nodes[p].kind.Internal?
    && FamilyOk(c, p, nodes[p].kind.children)
    && Summarizes(h, c.below[p], Refresh(nodes[p], b, order))
    && var children := nodes[p].kind.children;
       var last := children[|children| - 1];
       && last < |nodes|
       && if a == |path| - 1 then nodes[last].maxOrder == Max(nodes[p].maxOrder, order)
          else
            && nodes[last].maxOrder == nodes[p].maxOrder
            && path[a + 1] in children && path[a + 1] < |nodes| && nodes[path[a + 1]].maxOrder <= nodes[p].maxOrder
  }

  ghost predicate PathLinks(c: Cover, path: seq<nat>) {
    && Distinct(path)
    && (forall a :: 0 <= a < |path| ==> path[a] < |c.parent|)
    && forall a :: 0 <= a < |path| ==> Linked(c, path, a)
  }

  /** The parent of the `a`-th path node is the one before it. */
  predicate Linked(c: Cover, path: seq<nat>, a: nat)
    requires a < |path| && path[a] < |c.parent|
  {
    c.parent[path[a]] == if a == 0 then None else Some(path[a - 1])
  }

  /** The upward pass has handled `path[j..]`; `start` is where it began. */
  ghost predicate Propagating(
    h: seq<Entry>, start: seq<Node>, nodes: seq<Node>, c: Cover, path: seq<nat>, j: nat, b: Bounds, order: nat)
    requires j <= |path|
  {
    && |start| == |nodes| == |c.below| == |c.parent|
    && PathLinks(c, path)
    && (forall i :: 0 <= i < |nodes| && i !in path[..j] ==> NodeOk(h, nodes, c, i))
    && (forall i :: 0 <= i < |nodes| && i !in path[j..] ==> nodes[i] == start[i])
    && (forall a :: j <= a < |path| ==> nodes[path[a]].maxOrder == Max(start[path[a]].maxOrder, order))
    && (forall a :: 0 <= a < j ==> Awaiting(h, start, c, path, a, b, order))
  }

  /** On the path, only the next node has a given path node as its parent. */
  lemma NextOnPath(c: Cover, path: seq<nat>, j: nat, x: nat)
    requires PathLinks(c, path) && 0 < j <= |path|
    requires x < |c.parent| && c.parent[x] == Some(path[j - 1]) && x in path
    ensures j < |path| && x == path[j]
  {
    var a :| 0 <= a < |path| && path[a] == x;
    assert Linked(c, path, a);
    assert path[a - 1] == path[j - 1];
  }

  /** The node `Propagated` yields for the `j`-th step, and why its last child carries its maximum. */
  lemma LastChildSettled(
    h: seq<Entry>, start: seq<Node>, nodes: seq<Node>, c: Cover, path: seq<nat>, j: nat, b: Bounds, order: nat)
    requires 0 < j <= |path| && Propagating(h, start, nodes, c, path, j, b, order)
    ensures var p := path[j - 1];
            var child := if j == |path| then None else Some(path[j]);
            var n := Propagated(nodes[p], b, order, child);
            && n == Refresh(nodes[p], b, order).(kind := n.kind)
            && nodes[p].kind.Internal? && n.kind.Internal? && FamilyOk(c, p, n.kind.children)
            && (forall x :: x in n.kind.children <==> x in nodes[p].kind.children)
            && MemberOk(c, p, n.kind.children[|n.kind.children| - 1])
            && nodes[n.kind.children[|n.kind.children| - 1]].maxOrder == n.maxOrder
  {
    hide Exclusive, Exhaustive, Summarizes, NodeOk;
    var p := path[j - 1];
    assert p !in path[j..] by {
      forall a | j <= a < |path| ensures path[a] != p {}
    }
    assert Awaiting(h, start, c, path, j - 1, b, order);
    var children := nodes[p].kind.children;
    var last := children[|children| - 1];
    assert MemberOk(c, p, last);
    if last in path[j..] {
      NextOnPath(c, path, j, last);
    }
    if j < |path| && nodes[p].maxOrder < order {
      assert path[j] in path[j..];
      var pos := IndexOf(children, path[j]);
      FamilySwap(c, p, children, pos, |children| - 1);
      SwapMembers(children, pos, |children| - 1);
      assert MemberOk(c, p, path[j]);
    }
  }

  lemma PropagateStep(
    h: seq<Entry>, start: seq<Node>, nodes: seq<Node>, c: Cover, path: seq<nat>, j: nat, b: Bounds, order: nat)
    requires 0 < j <= |path| && Propagating(h, start, nodes, c, path, j, b, order)
    ensures path[j - 1] < |nodes|
    ensures var child := if j == |path| then None else Some(path[j]);
            var nodes' := nodes[path[j - 1] := Propagated(nodes[path[j - 1]], b, order, child)];
            && Propagating(h, start, nodes', c, path, j - 1, b, order)
            && forall p, i :: IsChild(nodes, p, i) <==> IsChild(nodes', p, i)
  {
    hide Exclusive, Exhaustive, Summarizes;
    var p := path[j - 1];
    var child := if j == |path| then None else Some(path[j]);
    var n := Propagated(nodes[p], b, order, child);
    var nodes' := nodes[p := n];
    LastChildSettled(h, start, nodes, c, path, j, b, order);
    assert Awaiting(h, start, c, path, j - 1, b, order);
    assert path[..j] == path[..j - 1] + [p];
    assert path[j - 1..] == [p] + path[j..];
    assert p !in path[j..] && p !in path[..j - 1] by {
      forall a | 0 <= a < |path| && a != j - 1 ensures path[a] != p {}
    }
    forall i | 0 <= i < |nodes| && i !in path[..j - 1]
      ensures NodeOk(h, nodes', c, i)
    {
      if i == p {
        PropagatedNodeOk(h, start, nodes, c, path, j, b, order);
      } else {
        assert NodeOk(h, nodes, c, i);
        OthersKeep(h, nodes, nodes', c, path, j, i);
      }
    }
  }

  lemma PropagatedNodeOk(
    h: seq<Entry>, start: seq<Node>, nodes: seq<Node>, c: Cover, path: seq<nat>, j: nat, b: Bounds, order: nat)
    requires 0 < j <= |path| && Propagating(h, start, nodes, c, path, j, b, order)
    ensures path[j - 1] < |nodes|
    ensures var child := if j == |path| then None else Some(path[j]);
            NodeOk(h, nodes[path[j - 1] := Propagated(nodes[path[j - 1]], b, order, child)], c, path[j - 1])
  {
    hide Exclusive, Exhaustive, IsHull, IsTop;
    var p := path[j - 1];
    LastChildSettled(h, start, nodes, c, path, j, b, order);
    assert Awaiting(h, start, c, path, j - 1, b, order);
    assert p !in path[j..] by {
      forall a | j <= a < |path| ensures path[a] != p {}
    }
    assert c.parent[p] != Some(p) by {
      var a := j - 1;
      assert Linked(c, path, a);
      assert a > 0 ==> path[a - 1] != path[a];
    }
  }

  /** Changing a path node leaves alone every node that is not its parent. */
  lemma OthersKeep(h: seq<Entry>, nodes: seq<Node>, nodes': seq<Node>, c: Cover, path: seq<nat>, j: nat, i: nat)
    requires 0 < j <= |path| && |nodes| == |nodes'| == |c.below| == |c.parent| && PathLinks(c, path)
    requires i < |nodes| && i !in path[..j - 1] && i != path[j - 1] && NodeOk(h, nodes, c, i)
    requires forall x :: 0 <= x < |nodes| && x != path[j - 1] ==> nodes'[x] == nodes[x]
    ensures NodeOk(h, nodes', c, i)
  {
    hide Exclusive, Exhaustive, Summarizes;
    assert Linked(c, path, j - 1);
    if nodes[i].kind.Internal? {
      var children := nodes[i].kind.children;
      assert MemberOk(c, i, children[|children| - 1]);
      assert j > 1 ==> path[j - 2] in path[..j - 1];
    }
  }

  // ---- Attaching the new leaf ----

  /** `c'` records position `k` below every path node and leaves the old nodes' parents alone,
      except that of `moved`. */
  ghost predicate Grown(c: Cover, c': Cover, path: seq<nat>, k: nat, moved: Option<nat>) {
    && |c.below| == |c.parent| <= |c'.below| == |c'.parent|
    && (forall i :: 0 <= i < |c.below| ==> c'.below[i] == if i in path then c.below[i] + {k} else c.below[i])
    && (forall i :: 0 <= i < |c.below| && Some(i) != moved ==> c'.parent[i] == c.parent[i])
  }

  ghost function GrowBelow(below: seq<set<nat>>, path: seq<nat>, k: nat): (r: seq<set<nat>>)
    ensures |r| == |below|
    ensures forall i :: 0 <= i < |below| ==> r[i] == if i in path then below[i] + {k} else below[i]
  {
    seq(|below|, i requires 0 <= i < |below| => if i in path then below[i] + {k} else below[i])
  }

  lemma PathLinked(h: seq<Entry>, nodes: seq<Node>, root: nat, c: Cover, path: seq<nat>)
    requires TreeOk(h, nodes, root, c) && IsPath(nodes, root, path)
    ensures PathLinks(c, path)
  {
    hide Exclusive, Exhaustive, Summarizes;
    PathDistinct(h, nodes, root, c, path);
    assert ParentOk(nodes, root, c, root);
    forall a | 0 <= a < |path| ensures Linked(c, path, a) {
      if a > 0 {
        assert NodeOk(h, nodes, c, path[a - 1]) && IsChild(nodes, path[a - 1], path[a]);
        assert MemberOk(c, path[a - 1], path[a]);
      }
    }
  }

  /** A node off the path has none of its children on it. */
  lemma OffPathChildren(c: Cover, path: seq<nat>, i: nat, x: nat)
    requires PathLinks(c, path) && i !in path && i < |c.below| == |c.parent| && MemberOk(c, i, x)
    ensures x !in path
  {
    forall a | 0 <= a < |path| ensures path[a] != x {
      assert Linked(c, path, a);
      assert a > 0 ==> path[a - 1] in path;
    }
  }

  lemma OffPathKeeps(
    h: seq<Entry>, nodes: seq<Node>, nodes': seq<Node>, c: Cover, c': Cover, path: seq<nat>, e: Entry,
    moved: Option<nat>, i: nat)
    requires |nodes| == |c.below| == |c.parent| && |nodes| <= |nodes'| == |c'.below| == |c'.parent|
    requires PathLinks(c, path) && path != [] && Grown(c, c', path, |h|, moved)
    requires forall x :: 0 <= x < |nodes| && x !in path ==> nodes'[x] == nodes[x]
    requires moved.Some? ==> moved.value < |nodes| && c.parent[moved.value] == Some(path[|path| - 1])
    requires i < |nodes| && i !in path && NodeOk(h, nodes, c, i)
    ensures NodeOk(h + [e], nodes', c', i)
  {
    hide Exclusive, Exhaustive, IsHull, IsTop;
    SummaryGrows(h, c.below[i], nodes[i], e);
    if nodes[i].kind.Internal? {
      var children := nodes[i].kind.children;
      forall x | x in children ensures MemberOk(c, i, x) && x !in path && Some(x) != moved {
        assert MemberOk(c, i, x);
        OffPathChildren(c, path, i, x);
        assert path[|path| - 1] in path;
      }
      FamilyKeep(c, c', i, children);
      assert MemberOk(c', i, children[|children| - 1]);
    }
  }

  lemma OnPathAwaits(
    h: seq<Entry>, nodes: seq<Node>, nodes': seq<Node>, root: nat, c: Cover, c': Cover, path: seq<nat>, e: Entry,
    moved: Option<nat>, a: nat)
    requires TreeOk(h, nodes, root, c) && IsPath(nodes, root, path) && PathLinks(c, path)
    requires |nodes| <= |nodes'| == |c'.below| == |c'.parent| && Grown(c, c', path, |h|, moved)
    requires a < |path| - 1 && nodes'[path[a]] == nodes[path[a]]
    requires forall x :: 0 <= x < |nodes| ==> nodes'[x].maxOrder == nodes[x].maxOrder
    requires moved.Some? ==> moved.value < |nodes| && c.parent[moved.value] == Some(path[|path| - 1])
    ensures Awaiting(h + [e], nodes', c', path, a, e.bounds, e.order)
  {
    hide Exclusive, Exhaustive;
    var p, g := path[a], path[a + 1];
    assert IsChild(nodes, path[a], path[a + 1]);
    assert NodeOk(h, nodes, c, p) && NodeOk(h, nodes, c, g);
    var children := nodes[p].kind.children;
    assert MemberOk(c, p, g) && MemberOk(c, p, children[|children| - 1]);
    assert p in path && g in path && p != path[|path| - 1];
    forall x | x in children ensures MemberOk(c, p, x) && Some(x) != moved && (x in path ==> x == g) {
      assert MemberOk(c, p, x);
      if x in path { NextOnPath(c, path, a + 1, x); }
    }
    var pos := IndexOf(children, g);
    assert |h| !in c.below[p];
    FamilyReplace(c, c', p, children, pos, g, |h|);
    assert children[pos := g] == children;
    SummaryGrows(h, c.below[p], nodes[p], e);
    TopMonotone(h, c.below[g], c.below[p], nodes[g].maxOrder, nodes[p].maxOrder);
  }

  lemma TopMonotone(h: seq<Entry>, s: set<nat>, t: set<nat>, m: nat, n: nat)
    requires IsTop(h, s, m) && IsTop(h, t, n) && s <= t
    ensures m <= n
  {
  }

  /** After the leaf is attached below the last path node, the upward pass can begin. */
  lemma AttachOk(
    h: seq<Entry>, nodes: seq<Node>, nodes': seq<Node>, root: nat, c: Cover, c': Cover, path: seq<nat>, e: Entry,
    moved: Option<nat>, children': seq<nat>)
    requires TreeOk(h, nodes, root, c) && IsPath(nodes, root, path) && PathLinks(c, path)
    requires |nodes| <= |nodes'| == |c'.below| == |c'.parent| && Grown(c, c', path, |h|, moved)
    requires moved.Some? ==>
               moved.value < |nodes| && moved.value !in path && c.parent[moved.value] == Some(path[|path| - 1])
    requires var cur := path[|path| - 1];
             && nodes'[cur] == nodes[cur].(kind := Internal(children'))
             && FamilyOk(c', cur, children') && MemberOk(c', cur, children'[|children'| - 1])
             && nodes'[children'[|children'| - 1]].maxOrder == Max(nodes[cur].maxOrder, e.order)
             && (forall x :: 0 <= x < |nodes| && x != cur ==> nodes'[x] == nodes[x])
    requires forall i :: |nodes| <= i < |nodes'| ==> NodeOk(h + [e], nodes', c', i)
    ensures Propagating(h + [e], nodes', nodes', c', path, |path|, e.bounds, e.order)
  {
    hide Exclusive, Exhaustive, IsHull, IsTop, NodeOk, FamilyOk, MemberOk;
    var cur := path[|path| - 1];
    assert path[..|path|] == path && path[|path|..] == [];
    assert cur in path;
    forall a | 0 <= a < |path|
      ensures Linked(c', path, a)
    {
      assert path[a] in path && Linked(c, path, a);
    }
    forall i | 0 <= i < |nodes'| && i !in path ensures NodeOk(h + [e], nodes', c', i) {
      if i < |nodes| {
        OffPathKeeps(h, nodes, nodes', c, c', path, e, moved, i);
      }
    }
    forall a | 0 <= a < |path| ensures Awaiting(h + [e], nodes', c', path, a, e.bounds, e.order) {
      if a < |path| - 1 {
        OnPathAwaits(h, nodes, nodes', root, c, c', path, e, moved, a);
      } else {
        LastAwaits(h, nodes, nodes', c, c', path, e, children');
      }
    }
  }

  lemma LastAwaits(
    h: seq<Entry>, nodes: seq<Node>, nodes': seq<Node>, c: Cover, c': Cover, path: seq<nat>, e: Entry,
    children': seq<nat>)
    requires |nodes| == |c.below| == |c.parent| && |nodes| <= |nodes'| == |c'.below| == |c'.parent| && path != []
    requires var cur := path[|path| - 1];
             && cur < |nodes| && NodeOk(h, nodes, c, cur) && nodes[cur].kind.Internal?
             && nodes'[cur] == nodes[cur].(kind := Internal(children')) && c'.below[cur] == c.below[cur] + {|h|}
             && FamilyOk(c', cur, children') && MemberOk(c', cur, children'[|children'| - 1])
             && nodes'[children'[|children'| - 1]].maxOrder == Max(nodes[cur].maxOrder, e.order)
    ensures Awaiting(h + [e], nodes', c', path, |path| - 1, e.bounds, e.order)
  {
    hide Exclusive, Exhaustive, IsHull, IsTop;
    var cur := path[|path| - 1];
    SummaryGrows(h, c.below[cur], nodes[cur], e);
  }

  ghost predicate RootCovers(h: seq<Entry>, c: Cover, root: nat) {
    root < |c.below| && forall k: nat :: k < |h| ==> k in c.below[root]
  }

  lemma FreshPosition(h: seq<Entry>, s: set<nat>, n: Node)
    requires Summarizes(h, s, n)
    ensures |h| !in s
  {
  }

  /** What is known about the node to which the leaf is added, and its children. */
  ghost predicate LastOk(h: seq<Entry>, nodes: seq<Node>, c: Cover, path: seq<nat>)
    requires |nodes| == |c.below| == |c.parent|
  {
    && path != []
    && var cur := path[|path| - 1];
       && cur in path && cur < |nodes| && nodes[cur].kind.Internal? && |h| !in c.below[cur]
       && var children := nodes[cur].kind.children;
          && FamilyOk(c, cur, children)
          && (forall x | x in children :: MemberOk(c, cur, x) && x !in path)
          && (forall x | x in children ::
                Summarizes(h, c.below[x], nodes[x]) && nodes[x].maxOrder <= nodes[cur].maxOrder)
          && |children| > 0 && children[|children| - 1] < |nodes|
          && nodes[children[|children| - 1]].maxOrder == nodes[cur].maxOrder
  }

  lemma LastOnPath(h: seq<Entry>, nodes: seq<Node>, root: nat, c: Cover, path: seq<nat>)
    requires TreeOk(h, nodes, root, c) && IsPath(nodes, root, path)
    ensures PathLinks(c, path) && LastOk(h, nodes, c, path)
  {
    hide Exclusive, Exhaustive, IsHull;
    PathLinked(h, nodes, root, c, path);
    var cur := path[|path| - 1];
    assert NodeOk(h, nodes, c, cur);
    FreshPosition(h, c.below[cur], nodes[cur]);
    forall x | x in nodes[cur].kind.children
      ensures MemberOk(c, cur, x) && x !in path
      ensures Summarizes(h, c.below[x], nodes[x]) && nodes[x].maxOrder <= nodes[cur].maxOrder
    {
      assert MemberOk(c, cur, x) && NodeOk(h, nodes, c, x);
      if x in path { NextOnPath(c, path, |path|, x); }
      TopMonotone(h, c.below[x], c.below[cur], nodes[x].maxOrder, nodes[cur].maxOrder);
    }
  }

  /** Children of a node with room, after the leaf is pushed: the highest order stays last. */
  function WithLeaf(n: Node, leaf: nat, order: nat): seq<nat>
    requires n.kind.Internal? && n.kind.children != []
  {
    var children := n.kind.children + [leaf];
    if order <= n.maxOrder then Swap(children, |children| - 2, |children| - 1) else children
  }

  /** Adding the leaf to the last path node itself. */
  lemma DirectAttach(h: seq<Entry>, nodes: seq<Node>, root: nat, c: Cover, path: seq<nat>, e: Entry)
    returns (c': Cover)
    requires TreeOk(h, nodes, root, c) && IsPath(nodes, root, path)
    requires 0 < |nodes[path[|path| - 1]].kind.children| < MAX_CHILDREN
    ensures var cur := path[|path| - 1];
            var children' := WithLeaf(nodes[cur], |nodes|, e.order);
            var nodes' := nodes[cur := nodes[cur].(kind := Internal(children'))] +
              [Node(e.bounds, e.order, Leaf(e.order))];
            && Propagating(h + [e], nodes', nodes', c', path, |path|, e.bounds, e.order)
            && (forall i :: 0 <= i < |nodes'| ==> ParentOk(nodes', root, c', i))
            && RootCovers(h + [e], c', root)
  {
    hide Exclusive, Exhaustive, IsHull, IsTop, FamilyOk;
    var leaf, k, cur := |nodes|, |h|, path[|path| - 1];
    var children := nodes[cur].kind.children;
    var children' := WithLeaf(nodes[cur], leaf, e.order);
    var nodes' := nodes[cur := nodes[cur].(kind := Internal(children'))] + [Node(e.bounds, e.order, Leaf(e.order))];
    c' := Cover(GrowBelow(c.below, path, k) + [{k}], c.parent + [Some(cur)]);
    LastOnPath(h, nodes, root, c, path);
    DirectFamily(c, c', cur, nodes[cur], leaf, k, e.order);
    LeafSummary(h, e);
    AttachOk(h, nodes, nodes', root, c, c', path, e, None, children');
    forall i | 0 <= i < |nodes'| ensures ParentOk(nodes', root, c', i) {
      if i < leaf {
        assert ParentOk(nodes, root, c, i);
      }
    }
    assert path[0] in path;
  }

  lemma DirectFamily(c: Cover, c': Cover, cur: nat, n: Node, leaf: nat, k: nat, order: nat)
    requires n.kind.Internal? && cur < |c.below| == |c.parent| && FamilyOk(c, cur, n.kind.children)
    requires |n.kind.children| < MAX_CHILDREN
    requires |c.below| == leaf < |c'.below| == |c'.parent| && k !in c.below[cur]
    requires c'.below[cur] == c.below[cur] + {k} && c'.below[leaf] == {k} && c'.parent[leaf] == Some(cur)
    requires forall x | x in n.kind.children ::
             x < |c.below| && c'.below[x] == c.below[x] && c'.parent[x] == c.parent[x]
    ensures var children' := WithLeaf(n, leaf, order);
            && FamilyOk(c', cur, children') && MemberOk(c', cur, children'[|children'| - 1])
            && (forall x :: x in children' <==> x == leaf || x in n.kind.children)
            && children'[|children'| - 1] ==
               if order <= n.maxOrder then n.kind.children[|n.kind.children| - 1] else leaf
  {
    hide Exclusive, Exhaustive;
    var children := n.kind.children + [leaf];
    FamilyAdd(c, c', cur, n.kind.children, leaf, k);
    FamilySwap(c', cur, children, |children| - 2, |children| - 1);
    SwapMembers(children, |children| - 2, |children| - 1);
  }

  /** Children of a full node after the leaf at `pos` gave way to the fresh inner node. */
  function WithInner(n: Node, pos: nat, inner: nat, innerMax: nat): seq<nat>
    requires n.kind.Internal? && pos < |n.kind.children|
  {
    var children := n.kind.children[pos := inner];
    if innerMax > n.maxOrder then Swap(children, pos, |children| - 1) else children
  }

  /** The fresh inner node over an old leaf and the new one: the higher order comes last. */
  function Pair(sibling: Node, siblingIdx: nat, leaf: nat, b: Bounds, order: nat): Node {
    Node(sibling.bounds.Union(b), Max(sibling.maxOrder, order),
         Internal(if order > sibling.maxOrder then [siblingIdx, leaf] else [leaf, siblingIdx]))
  }

  lemma PairOk(h: seq<Entry>, nodes: seq<Node>, c: Cover, sibling: nat, s: set<nat>, leaf: nat, inner: nat, e: Entry)
    requires |nodes| == |c.below| == |c.parent| && sibling < leaf < |nodes| && inner < |nodes| && sibling != inner
    requires nodes[leaf] == Node(e.bounds, e.order, Leaf(e.order))
    requires nodes[inner] == Pair(nodes[sibling], sibling, leaf, e.bounds, e.order)
    requires Summarizes(h, s, nodes[sibling]) && c.below[sibling] == s && c.below[leaf] == {|h|}
    requires c.below[inner] == s + {|h|}
    requires c.parent[sibling] == Some(inner) && c.parent[leaf] == Some(inner)
    ensures NodeOk(h + [e], nodes, c, leaf) && NodeOk(h + [e], nodes, c, inner)
  {
    hide Exclusive, Exhaustive;
    FreshPosition(h, s, nodes[sibling]);
    FamilyPair(c, inner, sibling, leaf, |h|);
    LeafSummary(h, e);
    SummaryGrows(h, s, nodes[sibling], e);
  }

  ghost function SplitCover(c: Cover, path: seq<nat>, best: nat, cur: nat, k: nat): (c': Cover)
    requires |c.below| == |c.parent| && best < |c.below| && best !in path
    ensures Grown(c, c', path, k, Some(best)) && |c'.below| == |c.below| + 2
    ensures c'.parent == c.parent[best := Some(|c.below| + 1)] + [Some(|c.below| + 1), Some(cur)]
    ensures c'.below[|c.below|] == {k} && c'.below[|c.below| + 1] == c.below[best] + {k}
  {
    Cover(GrowBelow(c.below, path, k) + [{k}, c.below[best] + {k}],
          c.parent[best := Some(|c.below| + 1)] + [Some(|c.below| + 1), Some(cur)])
  }

  function SplitNodes(nodes: seq<Node>, cur: nat, pos: nat, e: Entry): (nodes': seq<Node>)
    requires cur < |nodes| && nodes[cur].kind.Internal? && pos < |nodes[cur].kind.children|
    requires nodes[cur].kind.children[pos] < |nodes|
    ensures |nodes'| == |nodes| + 2
    ensures var best := nodes[cur].kind.children[pos];
            var inner := Pair(nodes[best], best, |nodes|, e.bounds, e.order);
            && nodes'[|nodes|] == Node(e.bounds, e.order, Leaf(e.order))
            && nodes'[|nodes| + 1] == inner
            && nodes'[cur] == nodes[cur].(kind := Internal(WithInner(nodes[cur], pos, |nodes| + 1, inner.maxOrder)))
            && forall i :: 0 <= i < |nodes| && i != cur ==> nodes'[i] == nodes[i]
  {
    var best := nodes[cur].kind.children[pos];
    var inner := Pair(nodes[best], best, |nodes|, e.bounds, e.order);
    var children' := WithInner(nodes[cur], pos, |nodes| + 1, inner.maxOrder);
    nodes[cur := nodes[cur].(kind := Internal(children'))] + [Node(e.bounds, e.order, Leaf(e.order)), inner]
  }

  /** Splitting off a fresh inner node when the last path node is full. */
  lemma SplitAttach(h: seq<Entry>, nodes: seq<Node>, root: nat, c: Cover, path: seq<nat>, e: Entry, pos: nat)
    returns (c': Cover)
    requires TreeOk(h, nodes, root, c) && IsPath(nodes, root, path)
    requires pos < |nodes[path[|path| - 1]].kind.children|
    requires var best := nodes[path[|path| - 1]].kind.children[pos]; best < |nodes| && nodes[best].kind.Leaf?
    ensures var cur := path[|path| - 1];
            var nodes' := SplitNodes(nodes, cur, pos, e);
            && Propagating(h + [e], nodes', nodes', c', path, |path|, e.bounds, e.order)
            && (forall i :: 0 <= i < |nodes'| ==> ParentOk(nodes', root, c', i))
            && RootCovers(h + [e], c', root)
  {
    hide Exclusive, Exhaustive, FamilyOk, Summarizes, NodeOk, Propagating, PathLinks, SplitCover, SplitNodes;
    var k, cur := |h|, path[|path| - 1];
    var best := nodes[cur].kind.children[pos];
    var inner := Pair(nodes[best], best, |nodes|, e.bounds, e.order);
    LastOnPath(h, nodes, root, c, path);
    c' := SplitCover(c, path, best, cur, k);
    assert ParentOk(nodes, root, c, root);
    SplitFamily(c, c', cur, nodes[cur], pos, |nodes| + 1, k, inner.maxOrder);
    SplitPropagates(h, nodes, SplitNodes(nodes, cur, pos, e), root, c, c', path, e, cur, pos, best);
    SplitParents(nodes, SplitNodes(nodes, cur, pos, e), root, c, c', cur, best,
                 WithInner(nodes[cur], pos, |nodes| + 1, inner.maxOrder));
    assert path[0] in path;
  }

  lemma SplitPropagates(
    h: seq<Entry>, nodes: seq<Node>, nodes': seq<Node>, root: nat, c: Cover, c': Cover, path: seq<nat>, e: Entry,
    cur: nat, pos: nat, best: nat)
    requires path != [] && cur == path[|path| - 1] < |nodes| == |c.below| == |c.parent| && nodes[cur].kind.Internal?
    requires pos < |nodes[cur].kind.children| && best == nodes[cur].kind.children[pos] < |nodes| && best !in path
    requires nodes' == SplitNodes(nodes, cur, pos, e) && c' == SplitCover(c, path, best, cur, |h|)
    requires TreeOk(h, nodes, root, c) && IsPath(nodes, root, path) && PathLinks(c, path) && LastOk(h, nodes, c, path)
    ensures Propagating(h + [e], nodes', nodes', c', path, |path|, e.bounds, e.order)
  {
    hide Exclusive, Exhaustive, FamilyOk, Summarizes, NodeOk, Propagating, PathLinks, SplitCover, SplitNodes, TreeOk;
    var leaf, innerIdx, k := |nodes|, |nodes| + 1, |h|;
    var inner := Pair(nodes[best], best, leaf, e.bounds, e.order);
    SplitFamily(c, c', cur, nodes[cur], pos, innerIdx, k, inner.maxOrder);
    assert nodes'[best] == nodes[best];
    PairOk(h, nodes', c', best, c.below[best], leaf, innerIdx, e);
    AttachOk(h, nodes, nodes', root, c, c', path, e, Some(best), WithInner(nodes[cur], pos, innerIdx, inner.maxOrder));
  }

  lemma SplitFamily(c: Cover, c': Cover, cur: nat, n: Node, pos: nat, inner: nat, k: nat, innerMax: nat)
    requires n.kind.Internal? && cur < |c.below| == |c.parent| && FamilyOk(c, cur, n.kind.children)
    requires pos < |n.kind.children|
    requires |c.below| <= inner < |c'.below| == |c'.parent| && k !in c.below[cur]
    requires n.kind.children[pos] < |c.below|
    requires c'.below[cur] == c.below[cur] + {k} && c'.below[inner] == c.below[n.kind.children[pos]] + {k}
    requires c'.parent[inner] == Some(cur)
    requires forall x | x in n.kind.children && x != n.kind.children[pos] ::
               x < |c.below| && c'.below[x] == c.below[x] && c'.parent[x] == c.parent[x]
    ensures var children' := WithInner(n, pos, inner, innerMax);
            && FamilyOk(c', cur, children') && MemberOk(c', cur, children'[|children'| - 1])
            && (forall x :: x in children' <==> x == inner || (x in n.kind.children && x != n.kind.children[pos]))
            && children'[|children'| - 1] ==
                 if innerMax > n.maxOrder || pos == |n.kind.children| - 1 then inner
                 else n.kind.children[|n.kind.children| - 1]
  {
    hide Exclusive, Exhaustive;
    var children := n.kind.children[pos := inner];
    FamilyReplace(c, c', cur, n.kind.children, pos, inner, k);
    ReplacedMembers(n.kind.children, pos, inner, |c.below|, c, cur);
    FamilySwap(c', cur, children, pos, |children| - 1);
    SwapMembers(children, pos, |children| - 1);
  }

  lemma SplitParents(
    nodes: seq<Node>, nodes': seq<Node>, root: nat, c: Cover, c': Cover, cur: nat, best: nat, children': seq<nat>)
    requires |nodes| == |c.parent| && |nodes'| == |c'.parent| == |nodes| + 2 && cur < |nodes| && best < |nodes|
    requires best != root && best != cur
    requires root < |nodes| && forall i :: 0 <= i < |nodes| ==> ParentOk(nodes, root, c, i)
    requires c'.parent == c.parent[best := Some(|nodes| + 1)] + [Some(|nodes| + 1), Some(cur)]
    requires nodes[cur].kind.Internal? && nodes'[cur].kind == Internal(children')
    requires forall x :: x in children' <==> x == |nodes| + 1 || (x in nodes[cur].kind.children && x != best)
    requires forall i :: 0 <= i < |nodes| && i != cur ==> nodes'[i] == nodes[i]
    requires nodes'[|nodes| + 1].kind in {Internal([best, |nodes|]), Internal([|nodes|, best])}
    ensures forall i :: 0 <= i < |nodes'| ==> ParentOk(nodes', root, c', i)
  {
    forall i | 0 <= i < |nodes'| ensures ParentOk(nodes', root, c', i) {
      if i < |nodes| && i != best {
        assert ParentOk(nodes, root, c, i);
      }
    }
  }
}
