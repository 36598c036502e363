/**
 The named static PCV deposits: fip_61's list and totals (proposals/dao/old/fip_61.ts), fip_73b's
 index-by-index removals (proposals/description/old/fip_73b.ts), and the contract that both act on
 (contracts/pcv/utils/NamedStaticPCVDepositWrapper.sol).
 */
module NamedDeposits {
  import opened Amounts
  import opened Bytes
  import opened IndexRemovals

  datatype Info = Info(depositName: string, usdAmount: nat, feiAmount: nat,
                       underlyingTokenAmount: nat, underlyingToken: nat)

  // ---------- Running totals ----------

  lemma SumUpdate<T>(s: seq<T>, f: T -> nat, i: nat, x: T)
    requires i < |s|
    ensures Sum(s[i := x], f) + f(s[i]) == Sum(s, f) + f(x)
  {
    var t := s[i := x];
    SumWithout(s, f, i);
    SumWithout(t, f, i);
    assert t[..i] + t[i + 1..] == s[..i] + s[i + 1..];
  }

  lemma SumSwapPop<T>(s: seq<T>, f: T -> nat, i: nat)
    requires i < |s|
    ensures Sum(SwapPop(s, i), f) + f(s[i]) == Sum(s, f)
  {
    SumUpdate(s, f, i, s[|s| - 1]);
  }

  /**
   Under the contract's deletion a descending list of indices leaves exactly the unlisted elements,
   possibly in another order, and any total over them is the total over the survivors.
   */
  lemma {:induction false} DescendingSwapPopsListed<T>(s: seq<T>, indices: seq<nat>, f: T -> nat)
    requires Descending(indices) && InRange(indices, |s|)
    ensures SwapPopEach(s, indices).Some?
    ensures multiset(SwapPopEach(s, indices).value) == multiset(Unlisted(s, indices, 0))
    ensures Sum(SwapPopEach(s, indices).value, f) == Sum(Unlisted(s, indices, 0), f)
  {
    DescendingIsInTurn(indices, |s|);
    SwapPopRemovesListedIff(s, indices);
    SumIgnoresOrder(SwapPopEach(s, indices).value, Unlisted(s, indices, 0), f);
  }

  // ---------- The contract ----------

  function Usd(d: Info): nat {
    d.usdAmount
  }

  function FeiOf(d: Info): nat {
    d.feiAmount
  }

  /** Every deposit has an amount, and the totals still fit on top of the given ones. */
  ghost predicate Accepted(ds: seq<Info>, usd: nat, fei: nat) {
    && (forall i :: 0 <= i < |ds| ==> ds[i].feiAmount > 0 || ds[i].usdAmount > 0)
    && usd + Sum(ds, Usd) < WORDS
    && fei + Sum(ds, FeiOf) < WORDS
  }

  /** A longer list is accepted when its front is and its last deposit fits. */
  lemma AcceptedNext(ds: seq<Info>, k: nat, usd: nat, fei: nat)
    requires k < |ds|
    ensures Accepted(ds[..k + 1], usd, fei) <==>
            (&& Accepted(ds[..k], usd, fei)
             && (ds[k].feiAmount > 0 || ds[k].usdAmount > 0)
             && usd + Sum(ds[..k], Usd) + ds[k].usdAmount < WORDS
             && fei + Sum(ds[..k], FeiOf) + ds[k].feiAmount < WORDS)
    ensures Accepted(ds, usd, fei) ==> Accepted(ds[..k + 1], usd, fei)
    ensures Sum(ds[..k + 1], Usd) == Sum(ds[..k], Usd) + ds[k].usdAmount
    ensures Sum(ds[..k + 1], FeiOf) == Sum(ds[..k], FeiOf) + ds[k].feiAmount
  {
    var next := ds[..k + 1];
    assert next[..|next| - 1] == ds[..k] && next[k] == ds[k];
    assert forall i :: 0 <= i < k ==> ds[..k][i] == next[i];
    SumSplit(ds, Usd, k + 1);
    SumSplit(ds, FeiOf, k + 1);
  }

  lemma PrefixNext<T>(a: seq<T>, b: seq<T>, k: nat)
    requires k < |b|
    ensures a + b[..k] + [b[k]] == a + b[..k + 1]
  {
  }

  class Wrapper {
    var pcvDeposits: seq<Info>
    var balance: nat
    var feiReportBalance: nat

    /** The running totals are the sums over the list, and fit their fields. */
    ghost predicate Valid()
      reads this
    {
      balance == Sum(pcvDeposits, Usd) < WORDS && feiReportBalance == Sum(pcvDeposits, FeiOf) < WORDS
    }

    constructor ()
      ensures Valid() && pcvDeposits == []
    {
      pcvDeposits := [];
      balance := 0;
      feiReportBalance := 0;
    }

    method AddDeposit(d: Info) returns (ok: bool)
      requires Valid()
      modifies this
      ensures Valid()
      ensures ok <==> (&& (d.feiAmount > 0 || d.usdAmount > 0)
                       && old(balance) + d.usdAmount < WORDS
                       && old(feiReportBalance) + d.feiAmount < WORDS)
      ensures pcvDeposits == if ok then old(pcvDeposits) + [d] else old(pcvDeposits)
      ensures balance == old(balance) + (if ok then d.usdAmount else 0)
      ensures feiReportBalance == old(feiReportBalance) + (if ok then d.feiAmount else 0)
    {
      if d.feiAmount == 0 && d.usdAmount == 0 {
        return false;
      }
      if balance + d.usdAmount >= WORDS || feiReportBalance + d.feiAmount >= WORDS {
        return false;
      }
      balance := balance + d.usdAmount;
      feiReportBalance := feiReportBalance + d.feiAmount;
      pcvDeposits := pcvDeposits + [d];
      assert pcvDeposits[..|pcvDeposits| - 1] == old(pcvDeposits);
      ok := true;
    }

    /** The constructor's and bulkAddDeposits' loop; a deposit that is refused undoes them all. */
    method BulkAddDeposits(ds: seq<Info>) returns (ok: bool)
      requires Valid()
      modifies this
      ensures Valid()
      ensures ok <==> Accepted(ds, old(balance), old(feiReportBalance))
      ensures pcvDeposits == if ok then old(pcvDeposits) + ds else old(pcvDeposits)
    {
      var before := (pcvDeposits, balance, feiReportBalance);
      for k := 0 to |ds|
        invariant Valid()
        invariant pcvDeposits == old(pcvDeposits) + ds[..k]
        invariant balance == old(balance) + Sum(ds[..k], Usd)
        invariant feiReportBalance == old(feiReportBalance) + Sum(ds[..k], FeiOf)
        invariant Accepted(ds[..k], old(balance), old(feiReportBalance))
      {
        AcceptedNext(ds, k, old(balance), old(feiReportBalance));
        ok := AddDeposit(ds[k]);
        if !ok {
          pcvDeposits, balance, feiReportBalance := before.0, before.1, before.2;
          return;
        }
        PrefixNext(old(pcvDeposits), ds, k);
      }
      assert ds[..|ds|] == ds;
      ok := true;
    }

    method EditDeposit(index: nat, d: Info) returns (ok: bool)
      requires Valid()
      modifies this
      ensures Valid()
      ensures ok <==> (index < |old(pcvDeposits)|
                       && old(balance) - old(pcvDeposits)[index].usdAmount + d.usdAmount < WORDS
                       && old(feiReportBalance) - old(pcvDeposits)[index].feiAmount + d.feiAmount < WORDS)
      ensures pcvDeposits == if ok then old(pcvDeposits)[index := d] else old(pcvDeposits)
    {
      if index >= |pcvDeposits| {
        return false;
      }
      SumUpdate(pcvDeposits, Usd, index, d);
      SumUpdate(pcvDeposits, FeiOf, index, d);
      var newBalance := balance - pcvDeposits[index].usdAmount + d.usdAmount;
      var newFeiReportBalance := feiReportBalance - pcvDeposits[index].feiAmount + d.feiAmount;
      if newBalance >= WORDS || newFeiReportBalance >= WORDS {
        return false;
      }
      balance := newBalance;
      feiReportBalance := newFeiReportBalance;
      pcvDeposits := pcvDeposits[index := d];
      ok := true;
    }

    method RemoveDeposit(index: nat) returns (ok: bool)
      requires Valid()
      modifies this
      ensures Valid()
      ensures ok <==> index < |old(pcvDeposits)|
      ensures pcvDeposits == if ok then SwapPop(old(pcvDeposits), index) else old(pcvDeposits)
    {
      if index >= |pcvDeposits| {
        return false;
      }
      SumSwapPop(pcvDeposits, Usd, index);
      SumSwapPop(pcvDeposits, FeiOf, index);
      var removed := pcvDeposits[index];
      var lastIndex := |pcvDeposits| - 1;
      if lastIndex != index {
        pcvDeposits := pcvDeposits[index := pcvDeposits[lastIndex]];
      }
      assert pcvDeposits == old(pcvDeposits)[index := old(pcvDeposits)[lastIndex]];
      pcvDeposits := pcvDeposits[..lastIndex];
      balance := balance - removed.usdAmount;
      feiReportBalance := feiReportBalance - removed.feiAmount;
      ok := true;
    }

    /** A proposal's removals, one command after another; a failing command stops them. */
    method RemoveDeposits(indices: seq<nat>) returns (ok: bool)
      requires Valid()
      modifies this
      ensures Valid()
      ensures ok <==> SwapPopEach(old(pcvDeposits), indices).Some?
      ensures ok ==> pcvDeposits == SwapPopEach(old(pcvDeposits), indices).value
    {
      for k := 0 to |indices|
        invariant Valid()
        invariant SwapPopEach(old(pcvDeposits), indices) == SwapPopEach(pcvDeposits, indices[k..])
      {
        assert indices[k..][0] == indices[k] && indices[k..][1..] == indices[k + 1..];
        ok := RemoveDeposit(indices[k]);
        if !ok {
          return;
        }
      }
      ok := true;
    }
  }

  // ---------- fip_61 and fip_73b ----------

  const ETH: nat := 1000000000000000000

  const NAMED_PCV_DEPOSITS: seq<Info> := [
    Info("500k Idle FEI Senior Tranche", 0, ETH * 500000, 0, 0x9ce3a740df498646939bcbb213a66bbfa1440af6),
    Info("2M Visor FEI-USDC 0.05% fee pool", 0, ETH * 2000000, ETH * 2000000,
         0x767fff096392eb26668e969c346ace3f327eae8d),
    Info("500k Barnbridge Senior", 0, ETH * 500000, 0, 0xa3abb32c657ada8803bf6aeef6eb42b29c74bf28),
    Info("2.5M Idle FEI Best Yield", 0, ETH * 2500000, 0, 0xb2d5cb72a621493fe83c6885e4a776279be595bc),
    Info("100k INDEX Token", ETH * 2240000, 0, ETH * 100000, 0x0954906da0bf32d5479e25f46056d22f08464cab),
    Info("50m Ondo LaaS", 0, ETH * 50000000, 0, 0x0000000000000000000000000000000000000000),
    Info("Kashi 1m DPI-FEI", 0, ETH * 1000000, 0, 0xf352773f1d4d69deb4de8d0578e43b993ee76e5d),
    Info("Kashi 2.5m SUSHI-FEI", 0, ETH * 2500000, 0, 0xf2028069cd88f75fcbcfe215c70fe6d77cb80b10),
    Info("Kashi 2.5m TRIBE-FEI", 0, ETH * 2500000, 0, 0x18c9584d9ce56a0f62f73f630f180d5278c873b7),
    Info("Kashi 2.5m WETH-FEI", 0, ETH * 2500000, 0, 0x329efec40f58054fc2f2cd4fd65809f2be3e11c8)]

  const REMOVALS: seq<nat> := [9, 8, 7, 6, 3, 2, 1, 0]

  /** fip_61's totals, and fip_73b's expectations. */
  const USD_TOTAL: nat := ETH * 2240000
  const FEI_TOTAL: nat := ETH * 64000000
  const FEI_LEFT: nat := ETH * 50000000

  /** The total over the elements from index k on. */
  function TotalFrom(s: seq<Info>, f: Info -> nat, k: nat): nat
    requires k <= |s|
    decreases |s| - k
  {
    if k == |s| then 0 else f(s[k]) + TotalFrom(s, f, k + 1)
  }

  lemma {:induction false} TotalIsSum(s: seq<Info>, f: Info -> nat, k: nat)
    requires k <= |s|
    ensures TotalFrom(s, f, k) == Sum(s[k..], f)
    decreases |s| - k
  {
    if k < |s| {
      TotalIsSum(s, f, k + 1);
      SumSplit(s[k..], f, 1);
      SumOne(s[k], f);
      assert s[k..][..1] == [s[k]] && s[k..][1..] == s[k + 1..];
    }
  }

  /** The total of ten, written out. */
  lemma TotalOfTen(s: seq<Info>, f: Info -> nat)
    requires |s| == 10
    ensures Sum(s, f) == f(s[0]) + f(s[1]) + f(s[2]) + f(s[3]) + f(s[4])
              + f(s[5]) + f(s[6]) + f(s[7]) + f(s[8]) + f(s[9])
  {
    TotalIsSum(s, f, 0);
    assert s[0..] == s;
    assert TotalFrom(s, f, 10) == 0 && TotalFrom(s, f, 9) == f(s[9]);
    assert TotalFrom(s, f, 8) == f(s[8]) + f(s[9]);
    assert TotalFrom(s, f, 6) == f(s[6]) + f(s[7]) + TotalFrom(s, f, 8);
    assert TotalFrom(s, f, 4) == f(s[4]) + f(s[5]) + TotalFrom(s, f, 6);
    assert TotalFrom(s, f, 2) == f(s[2]) + f(s[3]) + TotalFrom(s, f, 4);
  }

  /** A wrapper holding fip_61's list reports the totals that its validate expects. */
  lemma ListedTotals()
    ensures |NAMED_PCV_DEPOSITS| == 10
    ensures Sum(NAMED_PCV_DEPOSITS, Usd) == USD_TOTAL && Sum(NAMED_PCV_DEPOSITS, FeiOf) == FEI_TOTAL
  {
    TotalOfTen(NAMED_PCV_DEPOSITS, Usd);
    TotalOfTen(NAMED_PCV_DEPOSITS, FeiOf);
  }

  lemma RemovalsLeaveTwo(s: seq<Info>)
    requires |s| == 10
    ensures Unlisted(s, REMOVALS, 0) == [s[4], s[5]]
  {
    assert Unlisted(s, REMOVALS, 10) == [];
    assert Unlisted(s, REMOVALS, 9) == Unlisted(s, REMOVALS, 8)
           == Unlisted(s, REMOVALS, 7) == Unlisted(s, REMOVALS, 6) == [];
    assert Unlisted(s, REMOVALS, 5) == [s[5]];
    assert Unlisted(s, REMOVALS, 4) == [s[4], s[5]];
    assert Unlisted(s, REMOVALS, 3) == Unlisted(s, REMOVALS, 2) == Unlisted(s, REMOVALS, 1) == [s[4], s[5]];
  }

  /** Every removal shortens the list by one. */
  lemma {:induction false} RemovalsShorten<T>(s: seq<T>, indices: seq<nat>)
    requires SwapPopEach(s, indices).Some?
    ensures |SwapPopEach(s, indices).value| + |indices| == |s|
    decreases |indices|
  {
    if indices != [] {
      RemovalsShorten(SwapPop(s, indices[0]), indices[1..]);
    }
  }

  /**
   From any list, fip_73b's removals go through and its validate then passes exactly when the list
   has ten deposits of which the fifth and sixth hold the fifty million FEI.
   */
  lemma RemovalsValidateIff(s: seq<Info>)
    ensures var r := SwapPopEach(s, REMOVALS);
            r.Some? && |r.value| == 2 && Sum(r.value, FeiOf) == FEI_LEFT
            <==> |s| == 10 && s[4].feiAmount + s[5].feiAmount == FEI_LEFT
  {
    if SwapPopEach(s, REMOVALS).Some? {
      RemovalsShorten(s, REMOVALS);
    }
    if |s| == 10 {
      TwoAreLeft(s);
    }
  }

  lemma RemovalsDescend()
    ensures Descending(REMOVALS) && InRange(REMOVALS, 10)
  {
  }

  /** Of ten deposits the removals leave the fifth and the sixth. */
  lemma TwoAreLeft(s: seq<Info>)
    requires |s| == 10
    ensures var r := SwapPopEach(s, REMOVALS);
            && r.Some?
            && multiset(r.value) == multiset{s[4], s[5]}
            && Sum(r.value, FeiOf) == s[4].feiAmount + s[5].feiAmount
  {
    RemovalsDescend();
    RemovalsLeaveTwo(s);
    DescendingSwapPopsListed(s, REMOVALS, FeiOf);
    SumTwo(s[4], s[5], FeiOf);
  }

  lemma SumTwo<T>(x: T, y: T, f: T -> nat)
    ensures Sum([x, y], f) == f(x) + f(y)
  {
    SumSplit([x, y], f, 1);
    SumOne(x, f);
    SumOne(y, f);
    assert [x, y][..1] == [x] && [x, y][1..] == [y];
  }
}
