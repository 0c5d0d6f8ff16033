/** The nodes of the spatial tree and what it means for them to form one.

    Nodes live in one vector and name each other by index; indices say nothing about
    height, since a fresh root and a fresh inner node are both appended at the end.
    `Cover` is the missing structure: for every node the set of history positions of the
    leaves below it, and its parent.
 */
module TreeShape {
  import opened Basics
  import opened Geometry
  import opened DrawOrder

  const MAX_CHILDREN := 12

  datatype Kind = Leaf(order: nat) | Internal(children: seq<nat>)

  datatype Node = Node(bounds: Bounds, maxOrder: nat, kind: Kind)

  datatype Cover = Cover(below: seq<set<nat>>, parent: seq<Option<nat>>)

  ghost predicate CoversAll(h: seq<Entry>, s: set<nat>, box: Bounds) {
    forall k | k in s :: k < |h| && box.Covers(h[k].bounds)
  }

  /** `box` is the exact union of the rectangles at positions `s`. */
  ghost predicate IsHull(h: seq<Entry>, s: set<nat>, box: Bounds) {
    && CoversAll(h, s, box)
    && forall other: Bounds :: CoversAll(h, s, other) ==> other.Covers(box)
  }

  /** `m` is the exact maximum of the orders at positions `s`. */
  ghost predicate IsTop(h: seq<Entry>, s: set<nat>, m: nat) {
    && (forall k | k in s :: k < |h| && h[k].order <= m)
    && exists k :: k in s && h[k].order == m
  }

  ghost predicate Summarizes(h: seq<Entry>, s: set<nat>, n: Node) {
    IsHull(h, s, n.bounds) && IsTop(h, s, n.maxOrder)
  }

  /** The children of `i` partition what is below `i`, and only `i` claims them. */
  ghost predicate FamilyOk(c: Cover, i: nat, children: seq<nat>)
    requires i < |c.below| == |c.parent|
  {
    && 2 <= |children| <= MAX_CHILDREN
    && Distinct(children)
    && (forall x | x in children :: MemberOk(c, i, x))
    && Exhaustive(c, i, children)
    && Exclusive(c, children)
  }

  ghost predicate Exhaustive(c: Cover, i: nat, children: seq<nat>)
    requires i < |c.below|
  {
    forall k | k in c.below[i] :: exists x :: x in children && IsBelow(c, k, x)
  }

  ghost predicate Exclusive(c: Cover, children: seq<nat>) {
    forall k, x, y | x in children && y in children && IsBelow(c, k, x) && IsBelow(c, k, y) :: x == y
  }

  predicate IsBelow(c: Cover, k: nat, x: nat) {
    x < |c.below| && k in c.below[x]
  }

  ghost predicate MemberOk(c: Cover, i: nat, x: nat)
    requires i < |c.below| == |c.parent|
  {
    x < |c.below| && c.below[x] != {} && c.below[x] <= c.below[i] && c.parent[x] == Some(i)
  }

  ghost predicate NodeOk(h: seq<Entry>, nodes: seq<Node>, c: Cover, i: nat)
    requires i < |nodes| == |c.below| == |c.parent|
  {
    && Summarizes(h, c.below[i], nodes[i])
    && match nodes[i].kind
       case Leaf(order) => order == nodes[i].maxOrder && |c.below[i]| == 1
       case Internal(children) =>
         && FamilyOk(c, i, children)
         && MemberOk(c, i, children[|children| - 1])
         && nodes[children[|children| - 1]].maxOrder == nodes[i].maxOrder
  }

  ghost predicate ParentOk(nodes: seq<Node>, root: nat, c: Cover, i: nat)
    requires i < |nodes| == |c.parent|
  {
    if i == root then c.parent[i] == None
    else c.parent[i].Some? && IsChild(nodes, c.parent[i].value, i)
  }

  predicate IsChild(nodes: seq<Node>, p: nat, i: nat) {
    p < |nodes| && nodes[p].kind.Internal? && i in nodes[p].kind.children
  }

  ghost predicate TreeOk(h: seq<Entry>, nodes: seq<Node>, root: nat, c: Cover) {
    && |c.below| == |c.parent| == |nodes|
    && root < |nodes| <= 2 * |h| - 1
    && (forall k: nat :: k < |h| ==> k in c.below[root])
    && (forall i :: 0 <= i < |nodes| ==> NodeOk(h, nodes, c, i))
    && (forall i :: 0 <= i < |nodes| ==> ParentOk(nodes, root, c, i))
  }

  // ---- Summaries ----

  /** What a node becomes when a leaf with bounds `b` and the given order lands below it. */
  function Refresh(n: Node, b: Bounds, order: nat): Node {
    n.(bounds := n.bounds.Union(b), maxOrder := Max(n.maxOrder, order))
  }

  lemma SummaryGrows(h: seq<Entry>, s: set<nat>, n: Node, e: Entry)
    requires Summarizes(h, s, n)
    ensures Summarizes(h + [e], s, n)
    ensures Summarizes(h + [e], s + {|h|}, Refresh(n, e.bounds, e.order))
  {
    var h' := h + [e];
    var s' := s + {|h|};
    var n' := Refresh(n, e.bounds, e.order);
    forall other: Bounds
      ensures CoversAll(h', s, other) ==> CoversAll(h, s, other)
      ensures CoversAll(h', s', other) ==> other.Covers(n'.bounds)
    {
      if CoversAll(h', s, other) {
        assert forall k | k in s :: h'[k] == h[k];
      }
      if CoversAll(h', s', other) {
        assert |h| in s' && h'[|h|] == e;
        assert CoversAll(h, s, other) by {
          forall k | k in s ensures other.Covers(h[k].bounds) { assert k in s' && h'[k] == h[k]; }
        }
      }
    }
    var k :| k in s && h[k].order == n.maxOrder;
    assert k in s' && h'[k].order == n.maxOrder;
    assert |h| in s' && h'[|h|].order == e.order;
  }

  lemma LeafSummary(h: seq<Entry>, e: Entry)
    ensures Summarizes(h + [e], {|h|}, Node(e.bounds, e.order, Leaf(e.order)))
  {
  }

  // ---- Structure ----

  /** Each node is a child of at most one node. */
  lemma OneParent(h: seq<Entry>, nodes: seq<Node>, root: nat, c: Cover, p: nat, q: nat, i: nat)
    requires TreeOk(h, nodes, root, c)
    requires IsChild(nodes, p, i) && IsChild(nodes, q, i)
    ensures p == q && i != root && i < |nodes|
  {
    assert NodeOk(h, nodes, c, p) && NodeOk(h, nodes, c, q);
    assert ParentOk(nodes, root, c, root);
  }

  /** A child has strictly less below it, so descents end and no node is below itself. */
  lemma ChildIsSmaller(c: Cover, i: nat, children: seq<nat>, x: nat)
    requires i < |c.below| == |c.parent| && FamilyOk(c, i, children) && x in children
    ensures x < |c.below| && c.below[x] < c.below[i]
    ensures |c.below[x]| < |c.below[i]|
  {
    var y := if children[0] == x then children[1] else children[0];
    assert MemberOk(c, i, x) && MemberOk(c, i, y);
    SiblingTakesShare(c, i, children, x, y);
  }

  lemma SiblingTakesShare(c: Cover, i: nat, children: seq<nat>, x: nat, y: nat)
    requires i < |c.below| == |c.parent| && Exclusive(c, children)
    requires x in children && y in children && x != y && MemberOk(c, i, x) && MemberOk(c, i, y)
    ensures c.below[x] < c.below[i] && |c.below[x]| < |c.below[i]|
  {
    var k :| k in c.below[y];
    assert IsBelow(c, k, y);
    assert !IsBelow(c, k, x);
    SubsetSize(c.below[x], c.below[i] - {k});
  }

  /** Swapping two children keeps the family. */
  lemma FamilySwap(c: Cover, i: nat, children: seq<nat>, a: nat, b: nat)
    requires i < |c.below| == |c.parent| && FamilyOk(c, i, children)
    requires a < |children| && b < |children|
    ensures FamilyOk(c, i, Swap(children, a, b))
  {
    SwapMembers(children, a, b);
    assert Exhaustive(c, i, Swap(children, a, b)) by { SameMembers(c, i, children, Swap(children, a, b)); }
    assert Exclusive(c, Swap(children, a, b));
  }

  lemma SameMembers(c: Cover, i: nat, children: seq<nat>, children': seq<nat>)
    requires i < |c.below| && Exhaustive(c, i, children) && forall x :: x in children' <==> x in children
    ensures Exhaustive(c, i, children')
  {
  }

  function Swap(s: seq<nat>, a: nat, b: nat): seq<nat>
    requires a < |s| && b < |s|
  {
    s[a := s[b]][b := s[a]]
  }

  lemma SwapMembers(s: seq<nat>, a: nat, b: nat)
    requires a < |s| && b < |s|
    ensures forall x :: x in Swap(s, a, b) <==> x in s
    ensures Distinct(s) ==> Distinct(Swap(s, a, b))
  {
    var t := Swap(s, a, b);
    forall x | x in s ensures x in t {
      var i :| 0 <= i < |s| && s[i] == x;
      assert t[if i == a then b else if i == b then a else i] == x;
    }
  }

  // ---- Paths ----

  ghost predicate IsPath(nodes: seq<Node>, root: nat, path: seq<nat>) {
    && path != [] && path[0] == root
    && (forall a :: 0 <= a < |path| ==> path[a] < |nodes| && nodes[path[a]].kind.Internal?)
    && (forall a :: 0 < a < |path| ==> IsChild(nodes, path[a - 1], path[a]))
  }

  lemma {:induction false} PathShrinks(
    h: seq<Entry>, nodes: seq<Node>, root: nat, c: Cover, path: seq<nat>, a: nat, b: nat)
    requires TreeOk(h, nodes, root, c) && IsPath(nodes, root, path) && a < b < |path|
    ensures c.below[path[b]] < c.below[path[a]] && path[a] != path[b]
    decreases b
  {
    assert NodeOk(h, nodes, c, path[b - 1]);
    assert IsChild(nodes, path[b - 1], path[b]);
    ChildIsSmaller(c, path[b - 1], nodes[path[b - 1]].kind.children, path[b]);
    if a < b - 1 {
      PathShrinks(h, nodes, root, c, path, a, b - 1);
    }
  }

  lemma PathDistinct(h: seq<Entry>, nodes: seq<Node>, root: nat, c: Cover, path: seq<nat>)
    requires TreeOk(h, nodes, root, c) && IsPath(nodes, root, path)
    ensures Distinct(path)
  {
    forall a, b | 0 <= a < b < |path| ensures path[a] != path[b] {
      PathShrinks(h, nodes, root, c, path, a, b);
    }
  }
}
