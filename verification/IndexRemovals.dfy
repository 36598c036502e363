/**
 Removing a list of indices one after another, as fip_73b does (proposals/description/old/fip_73b.ts):
 by deletion that keeps the order, and by the swap-and-pop of the contract
 (contracts/pcv/utils/NamedStaticPCVDepositWrapper.sol).
 */
module IndexRemovals {
  import opened Amounts
  import opened Bytes

  /** Deletion that keeps the order. */
  function RemoveAt<T>(s: seq<T>, i: nat): seq<T>
    requires i < |s|
  {
    s[..i] + s[i + 1..]
  }

  /** The contract's deletion: the last element fills the gap. */
  function SwapPop<T>(s: seq<T>, i: nat): seq<T>
    requires i < |s|
  {
    s[i := s[|s| - 1]][..|s| - 1]
  }

  lemma SwapPopContents<T>(s: seq<T>, i: nat)
    requires i < |s|
    ensures multiset(SwapPop(s, i)) == multiset(s) - multiset{s[i]}
  {
    var n := |s| - 1;
    if i == n {
      assert s == s[..n] + [s[n]];
      assert SwapPop(s, i) == s[..n];
    } else {
      assert s == s[..i] + ([s[i]] + (s[i + 1..n] + [s[n]]));
      assert SwapPop(s, i) == s[..i] + ([s[n]] + s[i + 1..n]);
    }
  }

  // ---------- Removing a list of indices ----------

  /** One removal after another, each index counted in what is left; None once one is out of range. */
  function RemoveEach<T>(s: seq<T>, indices: seq<nat>): Option<seq<T>>
    decreases |indices|
  {
    if indices == [] then Some(s)
    else if indices[0] >= |s| then None
    else RemoveEach(RemoveAt(s, indices[0]), indices[1..])
  }

  function SwapPopEach<T>(s: seq<T>, indices: seq<nat>): Option<seq<T>>
    decreases |indices|
  {
    if indices == [] then Some(s)
    else if indices[0] >= |s| then None
    else SwapPopEach(SwapPop(s, indices[0]), indices[1..])
  }

  predicate Descending(indices: seq<nat>) {
    forall i, j :: 0 <= i < j < |indices| ==> indices[i] > indices[j]
  }

  predicate InRange(indices: seq<nat>, n: nat) {
    forall k :: 0 <= k < |indices| ==> indices[k] < n
  }

  predicate Distinct<T(==)>(s: seq<T>) {
    forall i, j :: 0 <= i < j < |s| ==> s[i] != s[j]
  }

  /** Each index is in range in its turn, when k elements are gone already. */
  predicate InTurn(indices: seq<nat>, n: nat) {
    forall k :: 0 <= k < |indices| ==> indices[k] + k < n
  }

  /** The elements at unlisted indices, from index k on. */
  function Unlisted<T>(s: seq<T>, indices: seq<nat>, k: nat): seq<T>
    requires k <= |s|
    decreases |s| - k
  {
    if k == |s| then []
    else if k in indices then Unlisted(s, indices, k + 1)
    else [s[k]] + Unlisted(s, indices, k + 1)
  }

  lemma {:induction false} UnlistedAbove<T>(s: seq<T>, indices: seq<nat>, k: nat)
    requires k <= |s| && forall i | i in indices :: i < k
    ensures Unlisted(s, indices, k) == s[k..]
    decreases |s| - k
  {
    if k < |s| {
      UnlistedAbove(s, indices, k + 1);
    }
  }

  /** Removing an index above all others first leaves those others where they were. */
  lemma {:induction false} UnlistedAfterRemoval<T>(s: seq<T>, i: nat, rest: seq<nat>, k: nat)
    requires k <= i < |s| && forall j | j in rest :: j < i
    ensures Unlisted(RemoveAt(s, i), rest, k) == Unlisted(s, [i] + rest, k)
    decreases i - k
  {
    if k == i {
      UnlistedAbove(RemoveAt(s, i), rest, i);
      UnlistedAbove(s, [i] + rest, i + 1);
      assert RemoveAt(s, i)[i..] == s[i + 1..];
    } else {
      assert k in [i] + rest <==> k in rest;
      UnlistedAfterRemoval(s, i, rest, k + 1);
    }
  }

  /** A descending list of indices removes exactly the listed original elements, in order. */
  lemma {:induction false} DescendingRemovesListed<T>(s: seq<T>, indices: seq<nat>)
    requires Descending(indices) && InRange(indices, |s|)
    ensures RemoveEach(s, indices) == Some(Unlisted(s, indices, 0))
    decreases |indices|
  {
    if indices == [] {
      UnlistedAbove(s, indices, 0);
    } else {
      var i, rest := indices[0], indices[1..];
      assert indices == [i] + rest && i in indices;
      assert forall j | j in rest :: j < i;
      DescendingRemovesListed(RemoveAt(s, i), rest);
      UnlistedAfterRemoval(s, i, rest, 0);
    }
  }

  // ---------- When removals go through ----------

  /** Either deletion goes through exactly when every index is in range in its turn. */
  lemma {:induction false} RemovesInTurn<T>(s: seq<T>, indices: seq<nat>)
    ensures RemoveEach(s, indices).Some? <==> InTurn(indices, |s|)
    ensures RemoveEach(s, indices).Some? ==> |RemoveEach(s, indices).value| + |indices| == |s|
    decreases |indices|
  {
    if indices != [] {
      if indices[0] < |s| {
        RemovesInTurn(RemoveAt(s, indices[0]), indices[1..]);
        InTurnNext(indices, |s|);
      }
    }
  }

  lemma {:induction false} SwapPopsInTurn<T>(s: seq<T>, indices: seq<nat>)
    ensures SwapPopEach(s, indices).Some? <==> InTurn(indices, |s|)
    ensures SwapPopEach(s, indices).Some? ==> |SwapPopEach(s, indices).value| + |indices| == |s|
    decreases |indices|
  {
    if indices != [] {
      if indices[0] < |s| {
        SwapPopsInTurn(SwapPop(s, indices[0]), indices[1..]);
        InTurnNext(indices, |s|);
      }
    }
  }

  lemma InTurnNext(indices: seq<nat>, n: nat)
    requires indices != [] && n > 0
    ensures InTurn(indices, n) <==> indices[0] < n && InTurn(indices[1..], n - 1)
  {
    var rest := indices[1..];
    assert forall k :: 0 < k < |indices| ==> indices[k] == rest[k - 1];
    if indices[0] < n && InTurn(rest, n - 1) {
      forall k | 0 < k < |indices|
        ensures indices[k] + k < n
      {
        assert rest[k - 1] + (k - 1) < n - 1;
      }
    }
    if InTurn(indices, n) {
      forall k | 0 <= k < |rest|
        ensures rest[k] + k < n - 1
      {
        assert indices[k + 1] + (k + 1) < n;
      }
    }
  }

  lemma {:induction false} DescendingIsInTurn(indices: seq<nat>, n: nat)
    requires Descending(indices) && InRange(indices, n)
    ensures InTurn(indices, n) && Distinct(indices)
  {
    if indices != [] {
      var rest := indices[1..];
      assert indices[0] in indices;
      assert forall j | j in rest :: j < indices[0];
      DescendingIsInTurn(rest, indices[0]);
      assert forall k :: 0 < k < |indices| ==> indices[k] == rest[k - 1] && rest[k - 1] + (k - 1) < indices[0];
    }
  }

  // ---------- Listed and unlisted elements ----------

  function Listed<T>(s: seq<T>, indices: seq<nat>): (r: seq<T>)
    requires InRange(indices, |s|)
    ensures |r| == |indices|
  {
    seq(|indices|, k requires 0 <= k < |indices| => s[indices[k]])
  }

  /** The unlisted elements as a multiset, for a set of indices. */
  function Kept<T>(s: seq<T>, listed: set<nat>, k: nat): multiset<T>
    requires k <= |s|
    decreases |s| - k
  {
    if k == |s| then multiset{}
    else if k in listed then Kept(s, listed, k + 1)
    else multiset{s[k]} + Kept(s, listed, k + 1)
  }

  lemma {:induction false} KeptAreUnlisted<T>(s: seq<T>, indices: seq<nat>, listed: set<nat>, k: nat)
    requires k <= |s| && forall j :: j in listed <==> j in indices
    ensures multiset(Unlisted(s, indices, k)) == Kept(s, listed, k)
    decreases |s| - k
  {
    if k < |s| {
      KeptAreUnlisted(s, indices, listed, k + 1);
    }
  }

  lemma {:induction false} KeptAbove<T>(s: seq<T>, i: nat, listed: set<nat>, k: nat)
    requires i < k <= |s|
    ensures Kept(s, listed + {i}, k) == Kept(s, listed, k)
    decreases |s| - k
  {
    if k < |s| {
      KeptAbove(s, i, listed, k + 1);
    }
  }

  lemma {:induction false} KeptWithout<T>(s: seq<T>, i: nat, listed: set<nat>, k: nat)
    requires k <= i < |s| && i !in listed
    ensures Kept(s, listed, k) == Kept(s, listed + {i}, k) + multiset{s[i]}
    decreases |s| - k
  {
    if k == i {
      KeptAbove(s, i, listed, k + 1);
    } else {
      KeptWithout(s, i, listed, k + 1);
    }
  }

  /** One more listed index takes its element out, unless it was listed before. */
  lemma UnlistedWithout<T>(s: seq<T>, i: nat, rest: seq<nat>)
    requires i < |s|
    ensures multiset(Unlisted(s, rest, 0)) ==
            multiset(Unlisted(s, [i] + rest, 0)) + if i in rest then multiset{} else multiset{s[i]}
  {
    var listed := set j | j in rest;
    KeptAreUnlisted(s, rest, listed, 0);
    KeptAreUnlisted(s, [i] + rest, listed + {i}, 0);
    if i in rest {
      assert listed + {i} == listed;
    } else {
      KeptWithout(s, i, listed, 0);
    }
  }

  lemma ListedFrom<T>(s: seq<T>, i: nat, rest: seq<nat>)
    requires InRange([i] + rest, |s|)
    ensures i < |s| && InRange(rest, |s|)
    ensures multiset(Listed(s, [i] + rest)) == multiset{s[i]} + multiset(Listed(s, rest))
  {
    var indices := [i] + rest;
    assert indices[0] == i && indices[1..] == rest;
    assert Listed(s, indices) == [s[i]] + Listed(s, rest);
  }

  /** Distinct listed elements and the unlisted ones make up the whole. */
  lemma {:induction false} ListedAndUnlisted<T>(s: seq<T>, indices: seq<nat>)
    requires Distinct(indices) && InRange(indices, |s|)
    ensures multiset(Unlisted(s, indices, 0)) + multiset(Listed(s, indices)) == multiset(s)
  {
    if indices == [] {
      UnlistedAbove(s, indices, 0);
    } else {
      var i, rest := indices[0], indices[1..];
      assert indices == [i] + rest;
      ListedFrom(s, i, rest);
      ListedAndUnlisted(s, rest);
      UnlistedWithout(s, i, rest);
      Regroup(multiset(Unlisted(s, indices, 0)), multiset{s[i]}, multiset(Listed(s, rest)));
    }
  }

  lemma Regroup<T>(a: multiset<T>, b: multiset<T>, c: multiset<T>)
    ensures (a + b) + c == a + (b + c)
  {
  }

  /** As many elements are unlisted as removals leave only if no index is listed twice. */
  lemma {:induction false} UnlistedCount<T>(s: seq<T>, indices: seq<nat>)
    requires InRange(indices, |s|)
    ensures |Unlisted(s, indices, 0)| + |indices| >= |s|
    ensures |Unlisted(s, indices, 0)| + |indices| == |s| ==> Distinct(indices)
  {
    if indices == [] {
      UnlistedAbove(s, indices, 0);
    } else {
      var i, rest := indices[0], indices[1..];
      assert indices == [i] + rest && i in indices;
      UnlistedCount(s, rest);
      UnlistedWithout(s, i, rest);
      var unlisted, before := Unlisted(s, indices, 0), Unlisted(s, rest, 0);
      assert |before| == |multiset(before)| == |multiset(unlisted)| + if i in rest then 0 else 1;
    }
  }

  lemma InTurnInRange(indices: seq<nat>, n: nat)
    requires InTurn(indices, n)
    ensures InRange(indices, n)
  {
  }

  // ---------- Swap-and-pop ----------

  /** Swap-and-pop at one index leaves the other elements below the last where they were. */
  lemma ListedAfterSwapPop<T>(s: seq<T>, i: nat, rest: seq<nat>)
    requires i < |s| && InRange(rest, |s| - 1) && forall k :: 0 <= k < |rest| ==> rest[k] != i
    ensures Listed(SwapPop(s, i), rest) == Listed(s, rest)
  {
  }

  lemma {:induction false} SwapPopTakesFirst<T>(s: seq<T>, i: nat, rest: seq<nat>, left: multiset<T>)
    requires i < |s| && InRange(rest, |s| - 1) && forall k :: 0 <= k < |rest| ==> rest[k] != i
    requires left + multiset(Listed(SwapPop(s, i), rest)) == multiset(SwapPop(s, i))
    ensures InRange([i] + rest, |s|)
    ensures left + multiset(Listed(s, [i] + rest)) == multiset(s)
  {
    SwapPopContents(s, i);
    ListedAfterSwapPop(s, i, rest);
    ListedFrom(s, i, rest);
    Rejoin(multiset(s), s[i], left, multiset(Listed(s, rest)));
  }

  /** Swap-and-pop of distinct indices, in range in turn, takes out the listed elements. */
  lemma {:induction false} SwapPopTakesListed<T>(s: seq<T>, indices: seq<nat>)
    requires InTurn(indices, |s|) && Distinct(indices)
    ensures SwapPopEach(s, indices).Some? && InRange(indices, |s|)
    ensures multiset(SwapPopEach(s, indices).value) + multiset(Listed(s, indices)) == multiset(s)
    decreases |indices|
  {
    if indices == [] {
      assert Listed(s, indices) == [];
    } else {
      var i, rest := indices[0], indices[1..];
      InTurnNext(indices, |s|);
      SwapPopTakesListed(SwapPop(s, i), rest);
      assert forall k :: 0 <= k < |rest| ==> rest[k] == indices[k + 1] && rest[k] != i;
      SwapPopTakesFirst(s, i, rest, multiset(SwapPopEach(SwapPop(s, i), rest).value));
      assert indices == [i] + rest;
    }
  }

  lemma Rejoin<T>(whole: multiset<T>, x: T, left: multiset<T>, taken: multiset<T>)
    requires x in whole && left + taken == whole - multiset{x}
    ensures left + (multiset{x} + taken) == whole
  {
    assert left + (multiset{x} + taken) == (left + taken) + multiset{x};
  }

  lemma DistinctSwapPopsListed<T>(s: seq<T>, indices: seq<nat>)
    requires InTurn(indices, |s|) && Distinct(indices)
    ensures SwapPopEach(s, indices).Some?
    ensures multiset(SwapPopEach(s, indices).value) == multiset(Unlisted(s, indices, 0))
  {
    SwapPopTakesListed(s, indices);
    ListedAndUnlisted(s, indices);
    var left, unlisted := multiset(SwapPopEach(s, indices).value), multiset(Unlisted(s, indices, 0));
    Cancel(left, unlisted, multiset(Listed(s, indices)));
  }

  lemma Cancel<T>(a: multiset<T>, b: multiset<T>, c: multiset<T>)
    requires a + c == b + c
    ensures a == b
  {
    assert a == a + c - c && b == b + c - c;
  }

  /**
   Swap-and-pop leaves exactly the unlisted elements, in some order, if and only if no index is
   listed twice and each is in range in its turn. The order of the indices does not matter beyond that.
   */
  lemma SwapPopRemovesListedIff<T>(s: seq<T>, indices: seq<nat>)
    ensures SwapPopEach(s, indices).Some?
            && multiset(SwapPopEach(s, indices).value) == multiset(Unlisted(s, indices, 0))
       <==> InTurn(indices, |s|) && Distinct(indices)
  {
    SwapPopsInTurn(s, indices);
    if InTurn(indices, |s|) {
      UnlistedCount(s, indices);
      SameSize(SwapPopEach(s, indices).value, Unlisted(s, indices, 0));
      if Distinct(indices) {
        DistinctSwapPopsListed(s, indices);
      }
    }
  }

  lemma SameSize<T>(s: seq<T>, t: seq<T>)
    ensures multiset(s) == multiset(t) ==> |s| == |t|
  {
    assert |multiset(s)| == |s| && |multiset(t)| == |t|;
  }

  // ---------- Deletion that keeps the order ----------

  /** The weights grow along the sequence. */
  ghost predicate Rising<T>(t: seq<T>, f: T -> nat) {
    forall i, j :: 0 <= i < j < |t| ==> f(t[i]) < f(t[j])
  }

  lemma {:induction false} RisingAtLeast<T>(t: seq<T>, f: T -> nat, j: nat)
    requires Rising(t, f) && j < |t|
    ensures f(t[j]) >= j
  {
    if j > 0 {
      RisingAtLeast(t, f, j - 1);
    }
  }

  /**
   Of rising weights each removal takes at least its index, and all together take exactly their
   indices only if these descend.
   */
  lemma {:induction false} RemovalsWeigh<T>(t: seq<T>, indices: seq<nat>, f: T -> nat)
    requires Rising(t, f) && RemoveEach(t, indices).Some?
    ensures Sum(RemoveEach(t, indices).value, f) + SumFrom(indices) <= Sum(t, f)
    ensures Sum(RemoveEach(t, indices).value, f) + SumFrom(indices) == Sum(t, f) ==>
              Descending(indices) && (indices != [] ==> f(t[indices[0]]) == indices[0])
    decreases |indices|
  {
    if indices != [] {
      var i, rest := indices[0], indices[1..];
      var u := RemoveAt(t, i);
      SumWithout(t, f, i);
      RisingAtLeast(t, f, i);
      RisingWithout(t, f, i);
      RemovalsWeigh(u, rest, f);
      if f(t[i]) == i && Descending(rest) && rest != [] && f(u[rest[0]]) == rest[0] {
        LaterIsHeavier(t, f, i, rest[0]);
        assert forall k :: 0 < k < |indices| ==> indices[k] == rest[k - 1];
      }
    }
  }

  /** The sum of the indices themselves. */
  function SumFrom(indices: seq<nat>): nat {
    if indices == [] then 0 else indices[0] + SumFrom(indices[1..])
  }

  lemma RisingWithout<T>(t: seq<T>, f: T -> nat, i: nat)
    requires Rising(t, f) && i < |t|
    ensures Rising(RemoveAt(t, i), f)
  {
    var u := RemoveAt(t, i);
    assert forall k :: 0 <= k < |u| ==> u[k] == if k < i then t[k] else t[k + 1];
  }

  /** Behind a removed element every element is heavier than its new index. */
  lemma LaterIsHeavier<T>(t: seq<T>, f: T -> nat, i: nat, j: nat)
    requires Rising(t, f) && i < |t| && j < |t| - 1
    ensures j >= i ==> f(RemoveAt(t, i)[j]) > j
  {
    if j >= i {
      assert RemoveAt(t, i)[j] == t[j + 1];
      RisingAtLeast(t, f, j + 1);
    }
  }

  /** Where an element first stands. */
  function Position<T(==)>(s: seq<T>, x: T): nat {
    if s == [] || s[0] == x then 0 else 1 + Position(s[1..], x)
  }

  lemma {:induction false} PositionOfDistinct<T>(s: seq<T>, k: nat)
    requires Distinct(s) && k < |s|
    ensures Position(s, s[k]) == k
  {
    if k > 0 {
      PositionOfDistinct(s[1..], k - 1);
    }
  }

  lemma {:induction false} ListedWeigh<T>(s: seq<T>, indices: seq<nat>, f: T -> nat)
    requires InRange(indices, |s|)
    requires forall k :: 0 <= k < |s| ==> f(s[k]) == k
    ensures Sum(Listed(s, indices), f) == SumFrom(indices)
  {
    if indices != [] {
      var i, rest := indices[0], indices[1..];
      assert i in indices;
      ListedWeigh(s, rest, f);
      assert Listed(s, indices) == [s[i]] + Listed(s, rest);
      SumSplit([s[i]] + Listed(s, rest), f, 1);
      SumOne(s[i], f);
      assert ([s[i]] + Listed(s, rest))[..1] == [s[i]] && ([s[i]] + Listed(s, rest))[1..] == Listed(s, rest);
    }
  }

  /** Of distinct elements, only descending indices take out the listed ones. */
  lemma OnlyDescendingTakesListed<T>(s: seq<T>, indices: seq<nat>)
    requires Distinct(s) && InTurn(indices, |s|) && RemoveEach(s, indices).Some?
    requires multiset(RemoveEach(s, indices).value) == multiset(Unlisted(s, indices, 0))
    ensures Descending(indices)
  {
    var f := x => Position(s, x);
    var left, unlisted := RemoveEach(s, indices).value, Unlisted(s, indices, 0);
    forall k | 0 <= k < |s| ensures f(s[k]) == k {
      PositionOfDistinct(s, k);
    }
    RemovesInTurn(s, indices);
    InTurnInRange(indices, |s|);
    SameSize(left, unlisted);
    UnlistedCount(s, indices);
    ListedAndUnlisted(s, indices);
    ListedWeigh(s, indices, f);
    var parts := unlisted + Listed(s, indices);
    SumIgnoresOrder(parts, s, f);
    SumSplit(parts, f, |unlisted|);
    assert parts[..|unlisted|] == unlisted && parts[|unlisted|..] == Listed(s, indices);
    SumIgnoresOrder(left, unlisted, f);
    RemovalsWeigh(s, indices, f);
  }

  /**
   Deletion that keeps the order leaves exactly the unlisted of distinct elements if and only if the
   indices descend and the first is in range.
   */
  lemma RemovalRemovesListedIff<T>(s: seq<T>, indices: seq<nat>)
    requires Distinct(s)
    ensures RemoveEach(s, indices).Some? && multiset(RemoveEach(s, indices).value) == multiset(Unlisted(s, indices, 0))
       <==> Descending(indices) && InRange(indices, |s|)
  {
    RemovesInTurn(s, indices);
    if Descending(indices) && InRange(indices, |s|) {
      DescendingRemovesListed(s, indices);
    }
    if RemoveEach(s, indices).Some? && multiset(RemoveEach(s, indices).value) == multiset(Unlisted(s, indices, 0)) {
      OnlyDescendingTakesListed(s, indices);
      InTurnInRange(indices, |s|);
    }
  }

  // ---------- Inputs on which each deletion fails ----------

  /** Two ascending indices make the order-keeping deletion take 'c' for 'b'; swap-and-pop copes. */
  lemma AscendingMissesListed()
    ensures Unlisted(['a', 'b', 'c'], [0, 1], 0) == ['c']
    ensures RemoveEach(['a', 'b', 'c'], [0, 1]) == Some(['b'])
    ensures SwapPopEach(['a', 'b', 'c'], [0, 1]) == Some(['c'])
  {
    var s, indices := ['a', 'b', 'c'], [0, 1];
    assert Unlisted(s, indices, 3) == [] && Unlisted(s, indices, 2) == ['c'] && Unlisted(s, indices, 1) == ['c'];
    assert indices[1..] == [1] && [1][1..] == [];
    assert RemoveAt(s, 0) == ['b', 'c'] && RemoveAt(['b', 'c'], 1) == ['b'];
    assert SwapPop(s, 0) == ['c', 'b'] && SwapPop(['c', 'b'], 1) == ['c'];
  }

  /** A repeated index makes swap-and-pop take an unlisted element too, and a late high one makes it fail. */
  lemma SwapPopMissesListed()
    ensures Unlisted(['a', 'b', 'c'], [0, 0], 0) == ['b', 'c']
    ensures SwapPopEach(['a', 'b', 'c'], [0, 0]) == Some(['b'])
    ensures SwapPopEach(['a', 'b'], [0, 1]).None? && RemoveEach(['a', 'b'], [0, 1]).None?
  {
    var s, indices := ['a', 'b', 'c'], [0, 0];
    assert Unlisted(s, indices, 3) == [] && Unlisted(s, indices, 2) == ['c'] && Unlisted(s, indices, 1) == ['b', 'c'];
    assert indices[1..] == [0] && [0][1..] == [];
    assert SwapPop(s, 0) == ['c', 'b'] && SwapPop(['c', 'b'], 0) == ['b'];
    assert [0, 1][1..] == [1];
    assert RemoveAt(['a', 'b'], 0) == ['b'] && SwapPop(['a', 'b'], 0) == ['b'];
  }
}
