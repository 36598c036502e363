/** Per-asset debt aggregation and its decimal scaling (scripts/utils/getFuseBadDebt.ts). */
module BadDebt {
  import opened Amounts

  datatype Asset = Eth | Fei | Frax | Rai | Dai | Usdc | Lusd | Ustw | Usdt | Weth | WstEth

  const UNDERLYINGS: map<nat, Asset> := map[
    0x0000000000000000000000000000000000000000 := Eth,
    0x956f47f50a910163d8bf957cf5846d573e7f87ca := Fei,
    0x853d955acef822db058eb8505911ed77f175b99e := Frax,
    0x03ab458634910aad20ef5f1c8ee96f1d6ac54919 := Rai,
    0x6b175474e89094c44da98b954eedeac495271d0f := Dai,
    0xa0b86991c6218b36c1d19d4a2e9eb0ce3606eb48 := Usdc,
    0x5f98805a4e8be255a32880fdec7f6728c6568ba0 := Lusd,
    0x7f39c581f595b53c5cb19bd0b3f8da6c935e2ca0 := WstEth,
    0xa693b19d2931d498c5b318df961919bb4aee87a5 := Ustw,
    0xc02aaa39b223fe8d0a0e5c4f27ead9083c756cc2 := Weth,
    0xdac17f958d2ee523a2206206994597c13d831ec7 := Usdt]

  /** A market's underlying address, and what the debtor owes it. */
  datatype Market = Market(underlying: nat, debt: nat)

  const WEI_PER_ETHER: nat := 1000000000000000000
  const MICRO: nat := 1000000

  /** What an asset's bucket is divided by; the last two are left as they are. */
  function Divisor(a: Asset): (d: nat)
    ensures d > 0
  {
    match a
    case Eth => WEI_PER_ETHER
    case Fei => WEI_PER_ETHER
    case Frax => WEI_PER_ETHER
    case Rai => WEI_PER_ETHER
    case Dai => WEI_PER_ETHER
    case Usdc => MICRO
    case Lusd => WEI_PER_ETHER
    case Ustw => MICRO
    case Usdt => MICRO
    case Weth => 1
    case WstEth => 1
  }

  predicate IsIn(m: Market, a: Asset) {
    m.underlying in UNDERLYINGS && UNDERLYINGS[m.underlying] == a
  }

  /** What a market adds to an asset's debt. */
  function Share(m: Market, a: Asset): nat {
    if IsIn(m, a) then m.debt else 0
  }

  function ShareIn(a: Asset): Market -> nat {
    m => Share(m, a)
  }

  function Bucket(ms: seq<Market>, a: Asset): nat {
    Sum(ms, ShareIn(a))
  }

  /** A debt in an unlisted asset has no bucket, and ends the script. */
  predicate Listed(ms: seq<Market>) {
    forall i | 0 <= i < |ms| :: ms[i].debt > 0 ==> ms[i].underlying in UNDERLYINGS
  }

  // ---------- The script's record ----------

  class Record {
    var eth: nat
    var fei: nat
    var frax: nat
    var rai: nat
    var dai: nat
    var usdc: nat
    var lusd: nat
    var ustw: nat
    var usdt: nat
    var weth: nat
    var wstEth: nat

    constructor ()
      ensures forall a: Asset :: Debt(a) == 0
    {
      eth, fei, frax, rai, dai, usdc := 0, 0, 0, 0, 0, 0;
      lusd, ustw, usdt, weth, wstEth := 0, 0, 0, 0, 0;
    }

    function Debt(a: Asset): nat
      reads this
    {
      match a
      case Eth => eth
      case Fei => fei
      case Frax => frax
      case Rai => rai
      case Dai => dai
      case Usdc => usdc
      case Lusd => lusd
      case Ustw => ustw
      case Usdt => usdt
      case Weth => weth
      case WstEth => wstEth
    }

    method Add(a: Asset, amount: nat)
      modifies this
      ensures forall b: Asset :: Debt(b) == old(Debt(b)) + if b == a then amount else 0
    {
      match a
      case Eth => eth := eth + amount;
      case Fei => fei := fei + amount;
      case Frax => frax := frax + amount;
      case Rai => rai := rai + amount;
      case Dai => dai := dai + amount;
      case Usdc => usdc := usdc + amount;
      case Lusd => lusd := lusd + amount;
      case Ustw => ustw := ustw + amount;
      case Usdt => usdt := usdt + amount;
      case Weth => weth := weth + amount;
      case WstEth => wstEth := wstEth + amount;
    }

    method Accumulate(ms: seq<Market>) returns (ok: bool)
      requires forall a: Asset :: Debt(a) == 0
      modifies this
      ensures ok <==> Listed(ms)
      ensures ok ==> forall a: Asset :: Debt(a) == Bucket(ms, a)
    {
      for i := 0 to |ms|
        invariant Listed(ms[..i])
        invariant forall a: Asset :: Debt(a) == Bucket(ms[..i], a)
      {
        BucketNext(ms, i);
        if ms[i].debt != 0 {
          if ms[i].underlying !in UNDERLYINGS {
            return false;
          }
          Add(UNDERLYINGS[ms[i].underlying], ms[i].debt);
        }
      }
      assert ms[..|ms|] == ms;
      ok := true;
    }

    method Scale()
      modifies this
      ensures forall a: Asset :: Debt(a) == old(Debt(a)) / Divisor(a)
      ensures forall a: Asset ::
                && (a in {Usdc, Ustw, Usdt} ==> Debt(a) == old(Debt(a)) / 1000000)
                && (a in {Weth, WstEth} ==> Debt(a) == old(Debt(a)))
                && (a !in {Usdc, Ustw, Usdt, Weth, WstEth} ==> Debt(a) == old(Debt(a)) / 1000000000000000000)
    {
      eth := eth / WEI_PER_ETHER;
      fei := fei / WEI_PER_ETHER;
      frax := frax / WEI_PER_ETHER;
      rai := rai / WEI_PER_ETHER;
      dai := dai / WEI_PER_ETHER;
      usdc := usdc / MICRO;
      lusd := lusd / WEI_PER_ETHER;
      ustw := ustw / MICRO;
      usdt := usdt / MICRO;
    }
  }

  lemma BucketNext(ms: seq<Market>, i: nat)
    requires i < |ms|
    ensures forall a: Asset :: Bucket(ms[..i + 1], a) == Bucket(ms[..i], a) + Share(ms[i], a)
    ensures Listed(ms[..i + 1]) <==> Listed(ms[..i]) && (ms[i].debt > 0 ==> ms[i].underlying in UNDERLYINGS)
  {
    var next := ms[..i + 1];
    assert next[..|next| - 1] == ms[..i] && next[i] == ms[i];
    assert forall j :: 0 <= j < i ==> next[j] == ms[..i][j];
  }

  // ---------- Market order ----------

  /** A bucket does not depend on the order in which the markets are visited. */
  lemma BucketIgnoresOrder(ms: seq<Market>, ns: seq<Market>, a: Asset)
    requires multiset(ms) == multiset(ns)
    ensures Bucket(ms, a) == Bucket(ns, a)
  {
    SumIgnoresOrder(ms, ns, ShareIn(a));
  }

  // ---------- The total ----------

  function DebtOf(m: Market): nat {
    m.debt
  }

  function AllDebts(ms: seq<Market>): nat {
    Sum(ms, DebtOf)
  }

  function AllBuckets(ms: seq<Market>): nat {
    Bucket(ms, Eth) + Bucket(ms, Fei) + Bucket(ms, Frax) + Bucket(ms, Rai) + Bucket(ms, Dai) + Bucket(ms, Usdc)
    + Bucket(ms, Lusd) + Bucket(ms, Ustw) + Bucket(ms, Usdt) + Bucket(ms, Weth) + Bucket(ms, WstEth)
  }

  /** A listed debt is in exactly one bucket. */
  lemma OneShare(m: Market)
    requires m.debt > 0 ==> m.underlying in UNDERLYINGS
    ensures Share(m, Eth) + Share(m, Fei) + Share(m, Frax) + Share(m, Rai) + Share(m, Dai) + Share(m, Usdc)
         + Share(m, Lusd) + Share(m, Ustw) + Share(m, Usdt) + Share(m, Weth) + Share(m, WstEth) == m.debt
  {
  }

  /** No debt is dropped or counted twice: the buckets sum to the total. */
  lemma {:induction false} BucketsSumToTotal(ms: seq<Market>)
    requires Listed(ms)
    ensures AllBuckets(ms) == AllDebts(ms)
  {
    if ms != [] {
      var k := |ms| - 1;
      BucketsSumToTotal(ms[..k]);
      BucketNext(ms, k);
      OneShare(ms[k]);
      assert ms[..k + 1] == ms;
    }
  }

  // ---------- Scaling ----------

  /** What a market would add if each debt were divided by itself. */
  function DividedIn(a: Asset): Market -> nat {
    m => Share(m, a) / Divisor(a)
  }

  function CountIn(a: Asset): Market -> nat {
    m => if IsIn(m, a) && m.debt > 0 then 1 else 0
  }

  lemma DivideOne(each: nat, x: nat, d: nat, k: nat)
    requires d > 0
    ensures d * each + x == d * (each + x / d) + x % d
    ensures k * (d - 1) + x % d <= (k + 1) * (d - 1)
    ensures x == 0 ==> x / d == 0 && x % d == 0
  {
    var q := x / d;
    assert x == d * q + x % d;
    assert d * (each + q) == d * each + d * q;
  }

  /** A bucket is the divided debts' sum times the unit, and less than one unit more for each debt. */
  lemma {:induction false} BucketInParts(ms: seq<Market>, a: Asset)
    ensures var d, each, n := Divisor(a), Sum(ms, DividedIn(a)), Sum(ms, CountIn(a));
            d * each <= Bucket(ms, a) <= d * each + n * (d - 1)
  {
    if ms != [] {
      var k := |ms| - 1;
      BucketInParts(ms[..k], a);
      DivideOne(Sum(ms[..k], DividedIn(a)), Share(ms[k], a), Divisor(a), Sum(ms[..k], CountIn(a)));
    }
  }

  lemma QuotientBetween(n: nat, d: nat, low: nat, high: nat)
    requires d > 0 && d * low <= n < d * (high + 1)
    ensures low <= n / d <= high
  {
    var q := n / d;
    assert d * q <= n < d * (q + 1);
    ProductOrder(q + 1, low, d);
    ProductOrder(high + 1, q, d);
  }

  lemma ProductOrder(x: nat, y: nat, d: nat)
    ensures x <= y ==> d * x <= d * y
  {
    if x <= y {
      assert d * y == d * x + d * (y - x);
    }
  }

  /** Dividing an asset's sum exceeds the sum of its n divided debts by at most n - 1. */
  lemma ScalingErrorBound(ms: seq<Market>, a: Asset)
    ensures var scaled, each, n := Bucket(ms, a) / Divisor(a), Sum(ms, DividedIn(a)), Sum(ms, CountIn(a));
            each <= scaled <= each + if n == 0 then 0 else n - 1
  {
    var d, each, n := Divisor(a), Sum(ms, DividedIn(a)), Sum(ms, CountIn(a));
    BucketInParts(ms, a);
    if n == 0 {
      QuotientBetween(Bucket(ms, a), d, each, each);
    } else {
      assert n * (d - 1) < n * d;
      assert d * (each + n - 1 + 1) == d * each + n * d;
      QuotientBetween(Bucket(ms, a), d, each, each + n - 1);
    }
  }
}
