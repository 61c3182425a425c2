/**
 * Address ranges and how often a list of them covers an address. Counting makes
 * "these ranges partition memory" independent of the order of the lists.
 */
module Intervals {
  import opened Basics

  datatype Interval = Interval(base: U32, size: U32)

  predicate Holds(iv: Interval, a: int) {
    iv.base <= a < iv.base + iv.size
  }

  function Cover(s: seq<Interval>, a: int): nat {
    if s == [] then 0 else Bit(Holds(s[0], a)) + Cover(s[1..], a)
  }

  function Sum(s: seq<Interval>): nat {
    if s == [] then 0 else s[0].size + Sum(s[1..])
  }

  predicate NonEmpty(s: seq<Interval>) {
    forall i :: 0 <= i < |s| ==> s[i].size > 0
  }

  predicate Bounded(s: seq<Interval>, limit: int) {
    forall i :: 0 <= i < |s| ==> s[i].base + s[i].size <= limit
  }

  predicate Adjacent(x: Interval, y: Interval) {
    x.base + x.size == y.base
  }

  predicate Coalesced(s: seq<Interval>) {
    forall i, j :: 0 <= i < |s| && 0 <= j < |s| && i != j ==> !Adjacent(s[i], s[j])
  }

  ghost predicate SameCover(s: seq<Interval>, t: seq<Interval>) {
    forall a :: Cover(s, a) == Cover(t, a)
  }

  lemma {:induction false} CoverAppend(s: seq<Interval>, t: seq<Interval>, a: int)
    ensures Cover(s + t, a) == Cover(s, a) + Cover(t, a)
  {
    if s == [] {
      assert s + t == t;
    } else {
      assert (s + t)[1..] == s[1..] + t;
      CoverAppend(s[1..], t, a);
    }
  }

  lemma {:induction false} SumAppend(s: seq<Interval>, t: seq<Interval>)
    ensures Sum(s + t) == Sum(s) + Sum(t)
  {
    if s == [] {
      assert s + t == t;
    } else {
      assert (s + t)[1..] == s[1..] + t;
      SumAppend(s[1..], t);
    }
  }

  lemma CoverSplit(s: seq<Interval>, i: nat, a: int)
    requires i < |s|
    ensures Cover(s, a) == Cover(s[..i], a) + Bit(Holds(s[i], a)) + Cover(s[i + 1..], a)
  {
    assert s == s[..i] + ([s[i]] + s[i + 1..]);
    CoverAppend(s[..i], [s[i]] + s[i + 1..], a);
    CoverAppend([s[i]], s[i + 1..], a);
  }

  lemma CoverUpdate(s: seq<Interval>, i: nat, iv: Interval, a: int)
    requires i < |s|
    ensures Cover(s[i := iv], a) + Bit(Holds(s[i], a)) == Cover(s, a) + Bit(Holds(iv, a))
  {
    CoverSplit(s, i, a);
    CoverSplit(s[i := iv], i, a);
    assert s[i := iv][..i] == s[..i] && s[i := iv][i + 1..] == s[i + 1..];
  }

  lemma CoverRemove(s: seq<Interval>, i: nat, a: int)
    requires i < |s|
    ensures Cover(RemoveAt(s, i), a) + Bit(Holds(s[i], a)) == Cover(s, a)
  {
    CoverSplit(s, i, a);
    CoverAppend(s[..i], s[i + 1..], a);
  }

  /** Two different ranges of a list that both hold `a` count twice. */
  lemma CoverTwo(s: seq<Interval>, i: nat, j: nat, a: int)
    requires i < |s| && j < |s| && i != j && Holds(s[i], a) && Holds(s[j], a)
    ensures Cover(s, a) >= 2
  {
    if j < i {
      CoverTwo(s, j, i, a);
    } else {
      CoverSplit(s, i, a);
      CoverSplit(s[i + 1..], j - i - 1, a);
    }
  }

  lemma CoverOne(s: seq<Interval>, i: nat, a: int)
    requires i < |s| && Holds(s[i], a)
    ensures Cover(s, a) >= 1
  {
    CoverSplit(s, i, a);
  }

  lemma {:induction false} CoverWitness(s: seq<Interval>, a: int) returns (i: nat)
    requires Cover(s, a) >= 1
    ensures i < |s| && Holds(s[i], a)
  {
    if Holds(s[0], a) {
      i := 0;
    } else {
      i := CoverWitness(s[1..], a);
      i := i + 1;
    }
  }

  /** Joining two adjacent ranges of a list, as one round of fusionar_huecos does, covers the same addresses. */
  lemma MergeKeepsCover(s: seq<Interval>, i: nat, j: nat, a: int)
    requires i < |s| && j < |s| && i != j && Adjacent(s[i], s[j]) && s[i].size + s[j].size <= U32_MAX
    ensures Cover(RemoveAt(s[i := Interval(s[i].base, s[i].size + s[j].size)], j), a) == Cover(s, a)
  {
    var iv := Interval(s[i].base, s[i].size + s[j].size);
    CoverUpdate(s, i, iv, a);
    CoverRemove(s[i := iv], j, a);
  }

  /**
   * A coalesced list of disjoint ranges is determined, as a set, by the
   * addresses it covers: this is what makes a rollback restore the very same holes.
   */
  lemma CoalescedIsCanonical(s: seq<Interval>, t: seq<Interval>)
    requires SameCover(s, t) && NonEmpty(s) && NonEmpty(t) && Coalesced(s) && Coalesced(t)
    requires forall a :: Cover(s, a) <= 1
    ensures forall iv :: iv in s <==> iv in t
  {
    forall iv | iv in s
      ensures iv in t
    {
      CoalescedMember(s, t, iv);
    }
    forall iv | iv in t
      ensures iv in s
    {
      CoalescedMember(t, s, iv);
    }
  }

  lemma CoalescedMember(s: seq<Interval>, t: seq<Interval>, iv: Interval)
    requires SameCover(s, t) && NonEmpty(s) && NonEmpty(t) && Coalesced(s) && Coalesced(t)
    requires forall a :: Cover(s, a) <= 1
    requires iv in s
    ensures iv in t
  {
    var i :| 0 <= i < |s| && s[i] == iv;
    CoverOne(s, i, iv.base);
    var j := CoverWitness(t, iv.base);
    SameStart(s, i, t, j);
    SameStart(t, j, s, i);
    SameEnd(s, i, t, j);
    SameEnd(t, j, s, i);
  }

  /** The range of `t` that meets `s[i]` cannot start before it: the byte just before would be covered by a neighbour. */
  lemma SameStart(s: seq<Interval>, i: nat, t: seq<Interval>, j: nat)
    requires SameCover(s, t) && NonEmpty(s) && NonEmpty(t) && Coalesced(s)
    requires forall a :: Cover(s, a) <= 1
    requires i < |s| && j < |t|
    requires exists a :: Holds(s[i], a) && Holds(t[j], a)
    ensures s[i].base <= t[j].base
  {
    if t[j].base < s[i].base {
      var a := s[i].base - 1;
      assert Holds(t[j], a);
      CoverOne(t, j, a);
      var k := CoverWitness(s, a);
      if s[k].base + s[k].size > s[i].base {
        assert Holds(s[k], s[i].base) && Holds(s[i], s[i].base);
        CoverTwo(s, k, i, s[i].base);
      }
      assert Adjacent(s[k], s[i]);
      assert false;
    }
  }

  lemma SameEnd(s: seq<Interval>, i: nat, t: seq<Interval>, j: nat)
    requires SameCover(s, t) && NonEmpty(s) && NonEmpty(t) && Coalesced(s)
    requires forall a :: Cover(s, a) <= 1
    requires i < |s| && j < |t| && s[i].base == t[j].base
    ensures t[j].size <= s[i].size
  {
    if s[i].size < t[j].size {
      var a := s[i].base + s[i].size;
      assert Holds(t[j], a);
      CoverOne(t, j, a);
      var k := CoverWitness(s, a);
      if s[k].base < a {
        assert Holds(s[k], a - 1) && Holds(s[i], a - 1);
        CoverTwo(s, k, i, a - 1);
      }
      assert Adjacent(s[i], s[k]);
      assert false;
    }
  }

  /** Addresses of [0, n) covered by `s`, counted one by one. */
  function CoverSum(s: seq<Interval>, n: nat): nat {
    if n == 0 then 0 else CoverSum(s, n - 1) + Cover(s, n - 1)
  }

  lemma {:induction false} CoverSumCons(s: seq<Interval>, n: nat)
    requires s != []
    ensures CoverSum(s, n) ==
            (if n <= s[0].base then 0 else if n <= s[0].base + s[0].size then n - s[0].base else s[0].size) + CoverSum(s[1..], n)
  {
    if n > 0 {
      CoverSumCons(s, n - 1);
    }
  }

  lemma {:induction false} CoverSumIsSum(s: seq<Interval>, n: nat)
    requires Bounded(s, n)
    ensures CoverSum(s, n) == Sum(s)
  {
    if s == [] {
      CoverSumEmpty(n);
    } else {
      CoverSumCons(s, n);
      CoverSumIsSum(s[1..], n);
    }
  }

  lemma {:induction false} CoverSumEmpty(n: nat)
    ensures CoverSum([], n) == 0
  {
    if n > 0 {
      CoverSumEmpty(n - 1);
    }
  }

  /** Ranges that cover every address of [0, n) exactly once have sizes adding up to n. */
  lemma PartitionSum(s: seq<Interval>, n: nat)
    requires Bounded(s, n)
    requires forall a :: 0 <= a < n ==> Cover(s, a) == 1
    ensures Sum(s) == n
  {
    CoverSumIsSum(s, n);
    CoverSumOnes(s, n, n);
  }

  lemma {:induction false} CoverSumOnes(s: seq<Interval>, n: nat, k: nat)
    requires k <= n && forall a :: 0 <= a < n ==> Cover(s, a) == 1
    ensures CoverSum(s, k) == k
  {
    if k > 0 {
      CoverSumOnes(s, n, k - 1);
    }
  }
}
