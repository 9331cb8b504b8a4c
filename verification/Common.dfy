/** Machine integers, slots, and counting and summing over sequences, shared by the protocol models. */
module Common {

  datatype Option<+T> = None | Some(value: T)

  const UINT32: nat := 0x1_0000_0000
  const INT32_MAX: int := 0x7FFF_FFFF

  /** What a signed 32-bit field keeps of an integer. */
  function ToInt32(v: int): int {
    var u := v % UINT32;
    if u > INT32_MAX then u - UINT32 else u
  }

  /** An ordered pair of different processes out of n. */
  predicate PairOf(n: nat, i: nat, j: nat) {
    i < n && j < n && i != j
  }

  /** What a one-place channel holds, as a sequence. */
  function OneOrNone<T>(slot: Option<T>): seq<T> {
    if slot.Some? then [slot.value] else []
  }

  lemma Regroup<T>(xs: seq<T>, x: T, ys: seq<T>)
    ensures xs + ([x] + ys) == xs + [x] + ys
  {
  }

  lemma SameEntry<T>(xss: seq<seq<T>>, a: nat, v: nat)
    requires a < |xss| && v < |xss[a]|
    ensures xss[a := xss[a][v := xss[a][v]]] == xss
  {
    assert xss[a][v := xss[a][v]] == xss[a];
  }

  /** Number of `true` entries. */
  function Count(bs: seq<bool>): (c: nat)
    ensures c <= |bs|
  {
    if |bs| == 0 then 0 else Count(bs[..|bs| - 1]) + if bs[|bs| - 1] then 1 else 0
  }

  lemma {:induction false} CountUpdate(bs: seq<bool>, i: nat, b: bool)
    requires i < |bs|
    ensures Count(bs[i := b]) == Count(bs) - (if bs[i] then 1 else 0) + (if b then 1 else 0)
  {
    var last := |bs| - 1;
    if i == last {
      assert bs[i := b][..last] == bs[..last];
    } else {
      assert bs[i := b][..last] == bs[..last][i := b];
      CountUpdate(bs[..last], i, b);
    }
  }

  /** A pointwise smaller marking has a smaller count, and the same count only if it is the same marking. */
  lemma {:induction false} CountMonotone(small: seq<bool>, bs: seq<bool>)
    requires |small| == |bs|
    requires forall i :: 0 <= i < |small| && small[i] ==> bs[i]
    ensures Count(small) <= Count(bs)
    ensures Count(small) == Count(bs) ==> small == bs
  {
    if |small| == 0 {
    } else {
      var last := |small| - 1;
      CountMonotone(small[..last], bs[..last]);
      assert small == small[..last] + [small[last]] && bs == bs[..last] + [bs[last]];
    }
  }

  lemma {:induction false} CountZero(bs: seq<bool>)
    ensures Count(bs) == 0 <==> forall i :: 0 <= i < |bs| ==> !bs[i]
  {
    if |bs| == 0 {
    } else {
      var last := |bs| - 1;
      CountZero(bs[..last]);
      assert forall i :: 0 <= i < last ==> bs[..last][i] == bs[i];
    }
  }

  lemma CountFull(bs: seq<bool>)
    ensures Count(bs) == |bs| <==> forall i :: 0 <= i < |bs| ==> bs[i]
  {
  }

  function Sum(xs: seq<int>): int {
    if |xs| == 0 then 0 else Sum(xs[..|xs| - 1]) + xs[|xs| - 1]
  }

  lemma {:induction false} SumUpdate(xs: seq<int>, i: nat, x: int)
    requires i < |xs|
    ensures Sum(xs[i := x]) == Sum(xs) - xs[i] + x
  {
    var last := |xs| - 1;
    if i == last {
      assert xs[i := x][..last] == xs[..last];
    } else {
      assert xs[i := x][..last] == xs[..last][i := x];
      SumUpdate(xs[..last], i, x);
    }
  }

  lemma {:induction false} SumNonNegative(xs: seq<int>)
    requires forall i :: 0 <= i < |xs| ==> xs[i] >= 0
    ensures Sum(xs) >= 0
  {
    if |xs| == 0 {
    } else {
      SumNonNegative(xs[..|xs| - 1]);
    }
  }
}
