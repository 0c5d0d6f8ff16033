/** The least-recently-used image cache of the gallery example. */
module Lru {
  import opened Basics

  type Hash = nat
  type Item = nat

  function Without(s: seq<Hash>, h: Hash): seq<Hash> {
    if s == [] then []
    else if s[0] == h then Without(s[1..], h)
    else [s[0]] + Without(s[1..], h)
  }

  /** The distinct hashes of a history, most recently used first. */
  function Recent(history: seq<Hash>): seq<Hash> {
    if history == [] then []
    else
      var h := history[|history| - 1];
      [h] + Without(Recent(history[..|history| - 1]), h)
  }

  function Take(s: seq<Hash>, n: nat): seq<Hash> {
    if |s| <= n then s else s[..n]
  }

  lemma {:induction false} WithoutMembers(s: seq<Hash>, h: Hash)
    ensures forall x :: x in Without(s, h) <==> x in s && x != h
    ensures h !in s ==> Without(s, h) == s
  {
    if s != [] {
      WithoutMembers(s[1..], h);
      assert s == [s[0]] + s[1..];
    }
  }

  lemma {:induction false} WithoutDistinct(s: seq<Hash>, h: Hash)
    requires Distinct(s)
    ensures Distinct(Without(s, h))
  {
    if s != [] {
      WithoutDistinct(s[1..], h);
      WithoutMembers(s[1..], h);
      assert s[0] !in s[1..];
    }
  }

  lemma {:induction false} WithoutConcat(a: seq<Hash>, b: seq<Hash>, h: Hash)
    ensures Without(a + b, h) == Without(a, h) + Without(b, h)
  {
    if a == [] {
      assert a + b == b;
    } else {
      assert (a + b)[1..] == a[1..] + b;
      WithoutConcat(a[1..], b, h);
    }
  }

  lemma {:induction false} RecentDistinct(history: seq<Hash>)
    ensures Distinct(Recent(history))
    ensures forall h :: h in Recent(history) <==> h in history
  {
    if history != [] {
      var init, h := history[..|history| - 1], history[|history| - 1];
      RecentDistinct(init);
      WithoutMembers(Recent(init), h);
      WithoutDistinct(Recent(init), h);
      assert history == init + [h];
    }
  }

  /** After some use of `x` there was no more use of `y`. */
  ghost predicate UsedAfter(history: seq<Hash>, x: Hash, y: Hash) {
    exists k :: 0 <= k < |history| && history[k] == x && y !in history[k..]
  }

  ghost predicate Before(s: seq<Hash>, x: Hash, y: Hash) {
    exists i, j :: 0 <= i < j < |s| && s[i] == x && s[j] == y
  }

  lemma {:induction false} WithoutBefore(s: seq<Hash>, h: Hash, x: Hash, y: Hash)
    requires Before(Without(s, h), x, y)
    ensures Before(s, x, y) && y != h
  {
    var r := Without(s, h);
    var i, j :| 0 <= i < j < |r| && r[i] == x && r[j] == y;
    WithoutMembers(s, h);
    assert y in r;
    if s[0] == h {
      assert r == Without(s[1..], h);
      WithoutBefore(s[1..], h, x, y);
      var i', j' :| 0 <= i' < j' < |s[1..]| && s[1..][i'] == x && s[1..][j'] == y;
      assert s[i' + 1] == x && s[j' + 1] == y;
    } else if i == 0 {
      assert r[1..] == Without(s[1..], h) && r[1..][j - 1] == y;
      assert y in r[1..];
      WithoutMembers(s[1..], h);
      var m :| 0 <= m < |s[1..]| && s[1..][m] == y;
      assert s[0] == x && s[m + 1] == y;
    } else {
      assert r[1..] == Without(s[1..], h) && r[1..][i - 1] == x && r[1..][j - 1] == y;
      WithoutBefore(s[1..], h, x, y);
      var i', j' :| 0 <= i' < j' < |s[1..]| && s[1..][i'] == x && s[1..][j'] == y;
      assert s[i' + 1] == x && s[j' + 1] == y;
    }
  }

  lemma {:induction false} RecentByUse(history: seq<Hash>, x: Hash, y: Hash)
    requires Before(Recent(history), x, y)
    ensures UsedAfter(history, x, y)
  {
    var n := |history| - 1;
    var init, h, r := history[..n], history[n], Recent(history);
    var i, j :| 0 <= i < j < |r| && r[i] == x && r[j] == y;
    var rest := Without(Recent(init), h);
    assert rest[j - 1] == y && y in rest;
    WithoutMembers(Recent(init), h);
    if i == 0 {
      assert history[n..] == [h] && history[n] == x;
    } else {
      assert rest[i - 1] == x;
      WithoutBefore(Recent(init), h, x, y);
      RecentByUse(init, x, y);
      var k :| 0 <= k < |init| && init[k] == x && y !in init[k..];
      assert history[k..] == init[k..] + [h];
    }
  }

  /** The first `n` of the recent hashes are those used last, the latest first: none of them was
      used for the last time before one that comes later or is not among them. */
  lemma MostRecentFirst(history: seq<Hash>, n: nat, x: Hash, y: Hash)
    requires x in Take(Recent(history), n) && y in history
    requires Before(Take(Recent(history), n), x, y) || y !in Take(Recent(history), n)
    ensures UsedAfter(history, x, y)
  {
    RecentDistinct(history);
    var r, first := Recent(history), Take(Recent(history), n);
    assert r == first + r[|first|..];
    if y !in first {
      var i :| 0 <= i < |first| && first[i] == x;
      var j :| 0 <= j < |r| && r[j] == y;
      assert forall m :: 0 <= m < |first| ==> r[m] == first[m] && first[m] in first;
    }
    assert Before(r, x, y);
    RecentByUse(history, x, y);
  }

  /** As many of them as there are, and at most `n`. */
  lemma TakeCounts(history: seq<Hash>, n: nat)
    ensures var first := Take(Recent(history), n);
            |first| <= n && (|first| < n ==> forall h | h in history :: h in first)
  {
    RecentDistinct(history);
  }

  /** Moving a hash that is among the first `n` to the front keeps the first `n`. */
  lemma HitKeepsPrefix(r: seq<Hash>, h: Hash, n: nat)
    requires Distinct(r) && h in Take(r, n)
    ensures [h] + Without(Take(r, n), h) == Take([h] + Without(r, h), n)
  {
    var a := Take(r, n);
    var b := r[|a|..];
    assert r == a + b;
    assert h !in b by {
      var i :| 0 <= i < |a| && a[i] == h;
      forall j | 0 <= j < |b| ensures b[j] != h { assert b[j] == r[|a| + j] && r[i] == h; }
    }
    WithoutConcat(a, b, h);
    WithoutMembers(b, h);
    WithoutOne(a, h);
    assert Without(r, h) == Without(a, h) + b;
    assert [h] + Without(r, h) == ([h] + Without(a, h)) + b;
  }

  /** Removing a present hash from a duplicate-free list removes one entry. */
  lemma {:induction false} WithoutOne(s: seq<Hash>, h: Hash)
    requires Distinct(s) && h in s
    ensures |Without(s, h)| == |s| - 1
  {
    if s[0] == h {
      assert h !in s[1..];
      WithoutMembers(s[1..], h);
    } else {
      assert h in s[1..];
      WithoutOne(s[1..], h);
    }
  }

  /** A miss puts the new hash in front of the most recent ones, the oldest of which may go. */
  lemma MissShiftsPrefix(r: seq<Hash>, h: Hash, n: nat)
    requires Distinct(r) && h !in Take(r, n) && n > 0
    ensures [h] + Take(Take(r, n), n - 1) == Take([h] + Without(r, h), n)
  {
    var a := Take(r, n);
    var b := r[|a|..];
    assert r == a + b;
    WithoutConcat(a, b, h);
    WithoutMembers(a, h);
    WithoutMembers(b, h);
    assert Without(r, h) == a + Without(b, h);
    assert |a| < n ==> b == [];
  }

  class LruCache {
    const maxItems: nat
    var usages: seq<Hash>
    var cache: map<Hash, Item>
    /** Every hash asked for, in order. */
    ghost var history: seq<Hash>

    /** The usage list is the most recent distinct hashes, and exactly the cached ones. */
    ghost predicate Valid()
      reads this
    {
      && maxItems > 0
      && usages == Take(Recent(history), maxItems)
      && (forall h :: h in usages <==> h in cache)
    }

    constructor (maxItems: nat)
      requires maxItems > 0
      ensures Valid() && history == [] && this.maxItems == maxItems
    {
      this.maxItems := maxItems;
      usages, cache, history := [], map[], [];
    }

    /** Looks a hash up and moves it to the front, or makes room and loads it as `item`.
        The assertions stand where the source asserts, unwraps or expects. */
    method Load(h: Hash, item: Item) returns (r: Item)
      requires Valid()
      modifies this
      ensures Valid() && history == old(history) + [h]
      ensures r == if h in old(cache) then old(cache)[h] else item
      ensures h in cache && cache[h] == r
      ensures forall x | x in cache && x != h :: x in old(cache) && cache[x] == old(cache)[x]
      ensures |cache| <= maxItems && |usages| == |cache|
    {
      hide Recent, Take;
      UsagesDistinct(history, maxItems);
      CacheSize(usages, cache);
      assert |usages| == |cache| && |cache| <= maxItems;
      HistoryGrows(history, h);
      ghost var recent := Recent(history);
      history := history + [h];
      RecentDistinct(old(history));
      if h in cache {
        r := cache[h];
        HitKeepsPrefix(recent, h, maxItems);
        MoveToFront(h);
      } else {
        r := item;
        MissShiftsPrefix(recent, h, maxItems);
        Insert(h, item);
      }
      UsagesDistinct(history, maxItems);
      CacheSize(usages, cache);
    }

    method MoveToFront(h: Hash)
      requires Distinct(usages) && h in usages
      modifies this`usages
      ensures usages == [h] + Without(old(usages), h)
      ensures forall x :: x in usages <==> x in old(usages)
    {
      var currentIx := Position(usages, h);
      RemoveIsWithout(usages, currentIx, h);
      usages := usages[..currentIx] + usages[currentIx + 1..];
      usages := [h] + usages;
      WithoutMembers(old(usages), h);
    }

    /** Evicts the oldest entry if the cache is full, then adds the new one in front. */
    method Insert(h: Hash, item: Item)
      requires maxItems > 0 && Distinct(usages) && |usages| <= maxItems && h !in cache
      requires forall x :: x in usages <==> x in cache
      modifies this`usages, this`cache
      ensures usages == [h] + Take(old(usages), maxItems - 1)
      ensures forall x :: x in usages <==> x in cache
      ensures h in cache && cache[h] == item
      ensures forall x | x in cache && x != h :: x in old(cache) && cache[x] == old(cache)[x]
    {
      if |usages| == maxItems {
        var oldest := usages[|usages| - 1];
        assert oldest in cache;
        usages := usages[..|usages| - 1];
        cache := cache - {oldest};
        DropLast(old(usages), old(cache), usages, cache);
      }
      cache := cache[h := item];
      usages := [h] + usages;
    }
  }

  lemma HistoryGrows(history: seq<Hash>, h: Hash)
    ensures Recent(history + [h]) == [h] + Without(Recent(history), h)
  {
    assert (history + [h])[..|history|] == history;
  }

  lemma UsagesDistinct(history: seq<Hash>, n: nat)
    ensures Distinct(Take(Recent(history), n)) && |Take(Recent(history), n)| <= n
  {
    RecentDistinct(history);
  }

  /** The index of a hash that is in the list. */
  method Position(s: seq<Hash>, h: Hash) returns (i: nat)
    requires h in s
    ensures i < |s| && s[i] == h && h !in s[..i]
  {
    i := 0;
    while i < |s| && s[i] != h
      invariant 0 <= i <= |s| && h !in s[..i]
    {
      i := i + 1;
    }
    assert s[..|s|] == s;
  }

  lemma {:induction false} RemoveIsWithout(s: seq<Hash>, i: nat, h: Hash)
    requires Distinct(s) && i < |s| && s[i] == h
    ensures s[..i] + s[i + 1..] == Without(s, h)
  {
    if i == 0 {
      assert h !in s[1..];
      WithoutMembers(s[1..], h);
      assert s[..0] + s[1..] == s[1..];
    } else {
      RemoveIsWithout(s[1..], i - 1, h);
      assert s[..i] + s[i + 1..] == [s[0]] + (s[1..][..i - 1] + s[1..][i..]);
    }
  }

  lemma DropLast(before: seq<Hash>, cached: map<Hash, Item>, after: seq<Hash>, left: map<Hash, Item>)
    requires Distinct(before) && before != [] && (forall h :: h in before <==> h in cached)
    requires after == before[..|before| - 1] && left == cached - {before[|before| - 1]}
    ensures forall h :: h in after <==> h in left
  {
    assert before == after + [before[|before| - 1]];
  }

  lemma {:induction false} CacheSize(s: seq<Hash>, m: map<Hash, Item>)
    requires Distinct(s) && forall h :: h in s <==> h in m
    ensures |s| == |m|
    decreases |s|
  {
    if s == [] {
      assert m == map[];
    } else {
      var last := s[|s| - 1];
      DropLast(s, m, s[..|s| - 1], m - {last});
      CacheSize(s[..|s| - 1], m - {last});
      assert last in m;
      assert (m - {last}).Keys == m.Keys - {last};
    }
  }
}
