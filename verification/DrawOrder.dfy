/** The draw order that the spatial tree must assign, stated without any tree.

    A history lists the rectangles inserted since the last clear together with the
    order each of them was given.
 */
module DrawOrder {
  import opened Basics
  import opened Geometry

  datatype Entry = Entry(bounds: Bounds, order: nat)

  /** The linear scan: the highest order among the entries that intersect `query`,
      and 0 if there is none. */
  function Scan(h: seq<Entry>, query: Bounds): nat {
    if h == [] then 0
    else
      var last := h[|h| - 1];
      var rest := Scan(h[..|h| - 1], query);
      if query.Intersects(last.bounds) then Max(rest, last.order) else rest
  }

  /** Every entry carries one more than what the scan of its predecessors finds. */
  ghost predicate Ordered(h: seq<Entry>) {
    forall k :: 0 <= k < |h| ==> h[k].order == Scan(h[..k], h[k].bounds) + 1
  }

  lemma {:induction false} ScanBound(h: seq<Entry>, query: Bounds, k: nat)
    requires k < |h| && query.Intersects(h[k].bounds)
    ensures h[k].order <= Scan(h, query)
  {
    if k < |h| - 1 {
      ScanBound(h[..|h| - 1], query, k);
    }
  }

  lemma {:induction false} ScanAttained(h: seq<Entry>, query: Bounds) returns (k: nat)
    requires Scan(h, query) > 0
    ensures k < |h| && query.Intersects(h[k].bounds) && h[k].order == Scan(h, query)
  {
    k := |h| - 1;
    if !query.Intersects(h[k].bounds) || h[k].order != Scan(h, query) {
      k := ScanAttained(h[..|h| - 1], query);
    }
  }

  /** `m` is the scan's result as soon as it bounds every hit and is a hit itself (or 0). */
  lemma ScanIs(h: seq<Entry>, query: Bounds, m: nat)
    requires forall k :: 0 <= k < |h| && query.Intersects(h[k].bounds) ==> h[k].order <= m
    requires m == 0 || exists k :: 0 <= k < |h| && query.Intersects(h[k].bounds) && h[k].order == m
    ensures Scan(h, query) == m
  {
    if m > 0 {
      var k :| 0 <= k < |h| && query.Intersects(h[k].bounds) && h[k].order == m;
      ScanBound(h, query, k);
    }
    if Scan(h, query) > 0 {
      var k := ScanAttained(h, query);
    }
  }

  lemma OrderedExtend(h: seq<Entry>, b: Bounds)
    requires Ordered(h)
    ensures Ordered(h + [Entry(b, Scan(h, b) + 1)])
  {
    var h' := h + [Entry(b, Scan(h, b) + 1)];
    forall k | 0 <= k < |h'|
      ensures h'[k].order == Scan(h'[..k], h'[k].bounds) + 1
    {
      assert h'[..k] == h[..k];
      assert k == |h| ==> h[..k] == h;
    }
  }

  // ---- What the assigned orders mean ----

  /** A chain ending at `k`: increasing positions, neighbours intersect. */
  ghost predicate IsChain(h: seq<Entry>, chain: seq<nat>, k: nat) {
    && chain != [] && chain[|chain| - 1] == k
    && (forall i :: 0 <= i < |chain| ==> chain[i] < |h|)
    && (forall i :: 0 < i < |chain| ==>
          chain[i - 1] < chain[i] && h[chain[i]].bounds.Intersects(h[chain[i - 1]].bounds))
  }

  /** A later rectangle that intersects an earlier one is drawn strictly above it. */
  lemma LaterIntersectingIsAbove(h: seq<Entry>, i: nat, k: nat)
    requires Ordered(h) && i < k < |h|
    requires h[k].bounds.Intersects(h[i].bounds)
    ensures h[i].order < h[k].order
  {
    ScanBound(h[..k], h[k].bounds, i);
  }

  lemma EqualOrdersDoNotIntersect(h: seq<Entry>, i: nat, k: nat)
    requires Ordered(h) && i < |h| && k < |h| && i != k && h[i].order == h[k].order
    ensures !h[i].bounds.Intersects(h[k].bounds)
  {
    IntersectsSymmetric(h[i].bounds, h[k].bounds);
    if h[i].bounds.Intersects(h[k].bounds) {
      LaterIntersectingIsAbove(h, if i < k then i else k, if i < k then k else i);
    }
  }

  lemma {:induction false} ChainIsNoLonger(h: seq<Entry>, chain: seq<nat>, k: nat)
    requires Ordered(h) && IsChain(h, chain, k)
    ensures |chain| <= h[k].order
    decreases |chain|
  {
    if |chain| > 1 {
      var shorter := chain[..|chain| - 1];
      var j := shorter[|shorter| - 1];
      ChainIsNoLonger(h, shorter, j);
      LaterIntersectingIsAbove(h, j, k);
    }
  }

  lemma ExtendChain(h: seq<Entry>, chain: seq<nat>, j: nat, k: nat)
    requires IsChain(h, chain, j) && j < k < |h|
    requires h[k].bounds.Intersects(h[j].bounds)
    ensures IsChain(h, chain + [k], k)
  {
  }

  lemma {:induction false} LongestChain(h: seq<Entry>, k: nat) returns (chain: seq<nat>)
    requires Ordered(h) && k < |h|
    ensures IsChain(h, chain, k) && |chain| == h[k].order
    decreases k
  {
    if h[k].order == 1 {
      chain := [k];
    } else {
      var j := ScanAttained(h[..k], h[k].bounds);
      var prefix := LongestChain(h, j);
      ExtendChain(h, prefix, j, k);
      chain := prefix + [k];
    }
  }

  /** The order of a rectangle is the length of the longest chain that ends at it. */
  lemma OrderIsLongestChain(h: seq<Entry>, k: nat)
    requires Ordered(h) && k < |h|
    ensures exists chain :: IsChain(h, chain, k) && |chain| == h[k].order
    ensures forall chain :: IsChain(h, chain, k) ==> |chain| <= h[k].order
  {
    var chain := LongestChain(h, k);
    forall chain | IsChain(h, chain, k)
      ensures |chain| <= h[k].order
    {
      ChainIsNoLonger(h, chain, k);
    }
  }

  /** No gaps: every order from 1 up to one in use is in use, already at an earlier position. */
  lemma {:induction false} OrdersHaveNoGaps(h: seq<Entry>, k: nat, order: nat) returns (j: nat)
    requires Ordered(h) && k < |h| && 1 <= order <= h[k].order
    ensures j <= k && h[j].order == order
    decreases k
  {
    if order == h[k].order {
      j := k;
    } else {
      var i := ScanAttained(h[..k], h[k].bounds);
      j := OrdersHaveNoGaps(h, i, order);
    }
  }

  lemma {:induction false} OrderAtMostCount(h: seq<Entry>, k: nat)
    requires Ordered(h) && k < |h|
    ensures 1 <= h[k].order <= k + 1
    decreases k
  {
    if h[k].order > 1 {
      var j := ScanAttained(h[..k], h[k].bounds);
      OrderAtMostCount(h, j);
    }
  }
}
