/** What Kernel Memory records about the connected Memory Sticks: consecutive ranges of one global address space. */
module Sticks {
  import opened Basics

  datatype StickInfo = StickInfo(id: U32, offset: U32, size: U32)

  predicate InStick(s: StickInfo, a: int) {
    s.offset <= a < s.offset + s.size
  }

  function End(s: StickInfo): int {
    s.offset + s.size
  }

  function Total(sticks: seq<StickInfo>): int {
    if sticks == [] then 0 else End(sticks[|sticks| - 1])
  }

  /** Every stick starts where the previous one ends, ids are given in order and the total fits 32 bits. */
  predicate Contiguous(sticks: seq<StickInfo>) {
    && Total(sticks) <= U32_MAX
    && (sticks != [] ==> sticks[0].offset == 0)
    && (forall k :: 0 <= k < |sticks| ==> sticks[k].id == k && sticks[k].size > 0)
    && (forall j, k :: 0 <= j < |sticks| && 0 <= k < |sticks| && k == j + 1 ==> End(sticks[j]) == sticks[k].offset)
  }

  lemma {:induction false} SticksOrdered(sticks: seq<StickInfo>, j: nat, k: nat)
    requires Contiguous(sticks) && j < k < |sticks|
    ensures End(sticks[j]) <= sticks[k].offset
    decreases k
  {
    if j + 1 < k {
      SticksOrdered(sticks, j, k - 1);
      assert End(sticks[k - 1]) == sticks[k].offset;
    }
  }

  /** Two sticks never share an address. */
  lemma SticksApart(sticks: seq<StickInfo>, j: nat, k: nat)
    requires Contiguous(sticks) && j < |sticks| && k < |sticks| && j != k
    ensures End(sticks[j]) <= sticks[k].offset || End(sticks[k]) <= sticks[j].offset
  {
    SticksOrdered(sticks, if j < k then j else k, if j < k then k else j);
  }

  lemma StickEnd(sticks: seq<StickInfo>, k: nat)
    requires Contiguous(sticks) && k < |sticks|
    ensures End(sticks[k]) <= Total(sticks)
  {
    if k < |sticks| - 1 {
      SticksOrdered(sticks, k, |sticks| - 1);
    }
  }

  lemma {:induction false} CountBound(sticks: seq<StickInfo>)
    requires Contiguous(sticks)
    ensures |sticks| <= Total(sticks)
  {
    if |sticks| > 1 {
      var n := |sticks| - 1;
      assert End(sticks[n - 1]) == sticks[n].offset;
      CountBound(sticks[..n]);
    }
  }

  lemma ContiguousAppend(sticks: seq<StickInfo>, s: StickInfo)
    requires Contiguous(sticks) && s.id == |sticks| && s.size > 0
    requires s.offset == Total(sticks) && s.offset + s.size <= U32_MAX
    ensures Contiguous(sticks + [s]) && Total(sticks + [s]) == Total(sticks) + s.size
  {
  }

  /** The first stick that holds an address: what ms_para_direccion finds. */
  function StickAt(sticks: seq<StickInfo>, a: int): (r: Option<nat>)
    ensures r.Some? ==> r.value < |sticks| && InStick(sticks[r.value], a)
    ensures r.None? ==> forall k :: 0 <= k < |sticks| ==> !InStick(sticks[k], a)
  {
    FirstStick(sticks, a, 0)
  }

  function FirstStick(sticks: seq<StickInfo>, a: int, from: nat): (r: Option<nat>)
    requires from <= |sticks|
    ensures r.Some? ==> r.value < |sticks| && InStick(sticks[r.value], a)
    ensures r.None? ==> forall k :: from <= k < |sticks| ==> !InStick(sticks[k], a)
    decreases |sticks| - from
  {
    if from == |sticks| then None
    else if InStick(sticks[from], a) then Some(from)
    else FirstStick(sticks, a, from + 1)
  }

  /** An address is found exactly when it is below the total ... */
  lemma StickAtTotal(sticks: seq<StickInfo>, a: int)
    requires Contiguous(sticks)
    ensures StickAt(sticks, a).Some? <==> 0 <= a < Total(sticks)
  {
    var r := StickAt(sticks, a);
    if r.Some? {
      StickEnd(sticks, r.value);
    } else if 0 <= a < Total(sticks) {
      NoGap(sticks, a, |sticks| - 1);
    }
  }

  lemma {:induction false} NoGap(sticks: seq<StickInfo>, a: int, k: nat)
    requires Contiguous(sticks) && k < |sticks| && 0 <= a < End(sticks[k])
    ensures exists j :: 0 <= j < |sticks| && InStick(sticks[j], a)
  {
    if a < sticks[k].offset {
      assert End(sticks[k - 1]) == sticks[k].offset;
      NoGap(sticks, a, k - 1);
    } else {
      assert InStick(sticks[k], a);
    }
  }

  /** ... and the stick found is the only one that holds it. */
  lemma StickAtUnique(sticks: seq<StickInfo>, a: int, k: nat)
    requires Contiguous(sticks) && k < |sticks| && InStick(sticks[k], a)
    ensures StickAt(sticks, a) == Some(k)
  {
    var r := StickAt(sticks, a);
    if r.value != k {
      SticksApart(sticks, r.value, k);
    }
  }
}
