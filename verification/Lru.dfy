/** The names a backend has prepared, in order of use, under a cap. */
module Lru {
  import opened Options

  type Name = string

  const U32_LIMIT: nat := 0x1_0000_0000

  /** `s` with every occurrence of `n` dropped (VecDeque::retain). */
  function Without(s: seq<Name>, n: Name): (r: seq<Name>)
    ensures forall x :: x in r <==> x in s && x != n
  {
    if s == [] then []
    else if s[0] == n then Without(s[1..], n)
    else [s[0]] + Without(s[1..], n)
  }

  ghost predicate NoDup(s: seq<Name>) {
    forall i, j :: 0 <= i < j < |s| ==> s[i] != s[j]
  }

  function Elems(s: seq<Name>): set<Name> {
    set x | x in s
  }

  /** The new order and the evicted name when `n` is used. */
  function Used(order: seq<Name>, max: nat, n: Name): (seq<Name>, Option<Name>) {
    if n in order then (Without(order, n) + [n], None)
    else if 0 < max <= |order| then (order[1..] + [n], Some(order[0]))
    else (order + [n], None)
  }

  lemma {:induction false} WithoutKeepsNoDup(s: seq<Name>, n: Name)
    requires NoDup(s)
    ensures NoDup(Without(s, n))
    ensures |Without(s, n)| == if n in s then |s| - 1 else |s|
    ensures n !in s ==> Without(s, n) == s
  {
    if s != [] {
      var t := s[1..];
      assert s == [s[0]] + t;
      assert NoDup(t) && s[0] !in t;
      WithoutKeepsNoDup(t, n);
      assert s[0] !in Without(t, n);
    }
  }

  lemma {:induction false} ElemsCardinality(s: seq<Name>)
    requires NoDup(s)
    ensures |Elems(s)| == |s|
  {
    if s != [] {
      ElemsCardinality(s[1..]);
      assert Elems(s) == {s[0]} + Elems(s[1..]);
    }
  }

  lemma AppendKeepsNoDup(s: seq<Name>, n: Name)
    requires NoDup(s) && n !in s
    ensures NoDup(s + [n]) && Elems(s + [n]) == Elems(s) + {n}
  {
  }

  lemma ElemsOfTail(s: seq<Name>)
    requires NoDup(s) && s != []
    ensures Elems(s[1..]) == Elems(s) - {s[0]}
  {
    assert s == [s[0]] + s[1..];
  }

  ghost predicate WithinCap(order: seq<Name>, max: nat) {
    NoDup(order) && (max > 0 ==> |order| <= max)
  }

  lemma UsedKeepsCap(order: seq<Name>, max: nat, n: Name)
    requires WithinCap(order, max)
    ensures WithinCap(Used(order, max, n).0, max)
    ensures Elems(Used(order, max, n).0) ==
            (match Used(order, max, n).1 case None => Elems(order) case Some(e) => Elems(order) - {e}) + {n}
    ensures Used(order, max, n).1.Some? ==> Used(order, max, n).1.value in order && n !in order
  {
    WithoutKeepsNoDup(order, n);
  }

  class Lru {
    var prepared: set<Name>
    var order: seq<Name>
    const max: nat

    ghost predicate Valid()
      reads this
    {
      && max < U32_LIMIT
      && WithinCap(order, max)
      && prepared == Elems(order)
    }

    constructor (max: nat)
      requires max < U32_LIMIT
      ensures Valid() && order == [] && this.max == max
    {
      prepared, order := {}, [];
      this.max := max;
    }

    method Contains(canon: Name) returns (hit: bool)
      requires Valid()
      ensures hit <==> canon in order
    {
      hit := canon in prepared;
    }

    /** The length is truncated to 32 bits before it is compared, as in the source;
        the cap keeps it below 2^32, so the truncation never shows. */
    method Insert(canon: Name) returns (evicted: Option<Name>)
      requires Valid()
      modifies this
      ensures Valid()
      ensures (order, evicted) == Used(old(order), max, canon)
    {
      if canon in prepared {
        WithoutKeepsNoDup(order, canon);
        AppendKeepsNoDup(Without(order, canon), canon);
        order := Without(order, canon);
        order := order + [canon];
        return None;
      }
      var len := |prepared| % U32_LIMIT;
      assert max > 0 ==> len == |order| by { ElemsCardinality(order); }
      if max > 0 && len >= max {
        evicted := Evict();
      } else {
        evicted := None;
      }
      AppendKeepsNoDup(order, canon);
      prepared := prepared + {canon};
      order := order + [canon];
    }

    /** Set and queue still agree exactly when the name was cached. */
    method Touch(canon: Name)
      requires Valid()
      modifies this`order
      ensures order == Without(old(order), canon) + [canon]
      ensures Valid() <==> canon in old(order)
    {
      WithoutKeepsNoDup(order, canon);
      AppendKeepsNoDup(Without(order, canon), canon);
      order := Without(order, canon);
      order := order + [canon];
      assert canon in Elems(order);
    }

    method Evict() returns (evicted: Option<Name>)
      requires Valid()
      modifies this
      ensures Valid()
      ensures old(order) == [] ==> evicted == None && order == []
      ensures old(order) != [] ==> evicted == Some(old(order)[0]) && order == old(order)[1..]
    {
      if order == [] {
        return None;
      }
      ElemsOfTail(order);
      var name := order[0];
      order := order[1..];
      prepared := prepared - {name};
      evicted := Some(name);
    }

    method Clear()
      modifies this
      requires Valid()
      ensures Valid() && order == []
    {
      prepared, order := {}, [];
    }

    method Remove(canon: Name)
      requires Valid()
      modifies this
      ensures Valid()
      ensures order == Without(old(order), canon)
    {
      WithoutKeepsNoDup(order, canon);
      prepared := prepared - {canon};
      order := Without(order, canon);
    }
  }

  // ---------------------------------------------------------------------
  // The cache is exactly the most recently used names
  // ---------------------------------------------------------------------

  /** The order after a history of uses, oldest first, starting from an empty cache. */
  function CacheAfter(uses: seq<Name>, max: nat): seq<Name> {
    if uses == [] then []
    else Used(CacheAfter(uses[..|uses| - 1], max), max, uses[|uses| - 1]).0
  }

  /** Position of the last use of `x`. */
  function LastUse(uses: seq<Name>, x: Name): (k: nat)
    requires x in uses
    ensures k < |uses|
  {
    if uses[|uses| - 1] == x then |uses| - 1
    else LastUse(uses[..|uses| - 1], x)
  }

  lemma {:induction false} LastUseIsLast(uses: seq<Name>, x: Name)
    requires x in uses
    ensures uses[LastUse(uses, x)] == x
    ensures forall j :: LastUse(uses, x) < j < |uses| ==> uses[j] != x
  {
    if uses[|uses| - 1] != x {
      LastUseIsLast(uses[..|uses| - 1], x);
    }
  }

  ghost predicate AllUsed(uses: seq<Name>, order: seq<Name>) {
    forall x :: x in order ==> x in uses
  }

  /** Oldest use first. */
  ghost predicate SortedByUse(uses: seq<Name>, order: seq<Name>)
    requires AllUsed(uses, order)
  {
    forall i, j :: 0 <= i < j < |order| ==> LastUse(uses, order[i]) < LastUse(uses, order[j])
  }

  /** Every used name that is not cached was last used before every cached one. */
  ghost predicate RestIsOlder(uses: seq<Name>, order: seq<Name>)
    requires AllUsed(uses, order)
  {
    forall x, y :: x in order && y in uses && y !in order ==> LastUse(uses, y) < LastUse(uses, x)
  }

  /** `order` holds the most recently used names of the history, oldest first:
      all of them, or exactly `max`. */
  ghost predicate MostRecent(uses: seq<Name>, max: nat, order: seq<Name>) {
    && WithinCap(order, max)
    && AllUsed(uses, order)
    && SortedByUse(uses, order)
    && RestIsOlder(uses, order)
    && ((forall y :: y in uses ==> y in order) || (max > 0 && |order| == max))
  }

  lemma LastUseStep(uses: seq<Name>, n: Name, x: Name)
    requires x in uses + [n]
    ensures LastUse(uses + [n], x) == if x == n then |uses| else LastUse(uses, x)
  {
    assert (uses + [n])[..|uses|] == uses;
  }

  lemma {:induction false} WithoutKeepsSorted(uses: seq<Name>, s: seq<Name>, n: Name)
    requires AllUsed(uses, s) && SortedByUse(uses, s)
    ensures AllUsed(uses, Without(s, n)) && SortedByUse(uses, Without(s, n))
  {
    if s != [] {
      var t := s[1..];
      assert s == [s[0]] + t;
      WithoutKeepsSorted(uses, t, n);
      var w := Without(t, n);
      if s[0] != n {
        forall j | 0 <= j < |w|
          ensures LastUse(uses, s[0]) < LastUse(uses, w[j])
        {
          assert w[j] in t;
          var k :| 0 <= k < |t| && t[k] == w[j];
          assert s[k + 1] == w[j];
        }
      }
    }
  }

  lemma AppendKeepsSorted(uses: seq<Name>, s: seq<Name>, n: Name)
    requires AllUsed(uses, s) && SortedByUse(uses, s) && n !in s
    ensures AllUsed(uses + [n], s + [n]) && SortedByUse(uses + [n], s + [n])
  {
    var h, o := uses + [n], s + [n];
    forall i, j | 0 <= i < j < |o|
      ensures LastUse(h, o[i]) < LastUse(h, o[j])
    {
      LastUseStep(uses, n, o[i]);
      LastUseStep(uses, n, o[j]);
    }
  }

  /** What is left of `order` to the left of the name just used. */
  function Kept(order: seq<Name>, max: nat, n: Name): seq<Name> {
    if n in order then Without(order, n) else if 0 < max <= |order| then order[1..] else order
  }

  lemma UseKeepsRestOlder(uses: seq<Name>, max: nat, order: seq<Name>, n: Name)
    requires MostRecent(uses, max, order)
    ensures var o := Kept(order, max, n) + [n];
            AllUsed(uses + [n], o) && RestIsOlder(uses + [n], o)
  {
    var h, kept := uses + [n], Kept(order, max, n);
    forall x, y | x in kept + [n] && y in h && y !in kept + [n]
      ensures LastUse(h, y) < LastUse(h, x)
    {
      LastUseStep(uses, n, x);
      LastUseStep(uses, n, y);
      if x != n && y in order {
        assert y == order[0];
        var i :| 0 <= i < |order| && order[i] == x;
      }
    }
  }

  /** One use keeps the cache the most recently used names. */
  lemma UseStep(uses: seq<Name>, max: nat, order: seq<Name>, n: Name)
    requires MostRecent(uses, max, order)
    ensures MostRecent(uses + [n], max, Used(order, max, n).0)
  {
    var kept := Kept(order, max, n);
    assert Used(order, max, n).0 == kept + [n];
    UsedKeepsCap(order, max, n);
    WithoutKeepsNoDup(order, n);
    if n in order {
      WithoutKeepsSorted(uses, order, n);
    }
    assert AllUsed(uses, kept) && SortedByUse(uses, kept) && n !in kept;
    AppendKeepsSorted(uses, kept, n);
    UseKeepsRestOlder(uses, max, order, n);
  }

  /** For every history, the cache is the `max` most recently used distinct names,
      oldest first (all of them when `max == 0`). */
  lemma {:induction false} CacheIsMostRecent(uses: seq<Name>, max: nat)
    ensures MostRecent(uses, max, CacheAfter(uses, max))
  {
    if uses != [] {
      var u := uses[..|uses| - 1];
      CacheIsMostRecent(u, max);
      UseStep(u, max, CacheAfter(u, max), uses[|uses| - 1]);
      assert u + [uses[|uses| - 1]] == uses;
    }
  }

  /** An eviction takes the cached name whose last use is oldest, and only at the cap. */
  lemma EvictsLeastRecentlyUsed(uses: seq<Name>, max: nat, n: Name)
    ensures var order := CacheAfter(uses, max);
            match Used(order, max, n).1
            case None => n in order || max == 0 || |order| < max
            case Some(e) =>
              && e in order && e in uses && n !in order && |order| == max
              && forall x :: x in order && x != e ==> x in uses && LastUse(uses, e) < LastUse(uses, x)
  {
    CacheIsMostRecent(uses, max);
    var order := CacheAfter(uses, max);
    forall x | x in order && x != order[0]
      ensures LastUse(uses, order[0]) < LastUse(uses, x)
    {
      var i :| 0 <= i < |order| && order[i] == x;
    }
  }
}
