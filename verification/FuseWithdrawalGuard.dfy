/**
 The fuse_withdrawal_guard proposal (proposals/dao/old/fuse_withdrawal_guard.ts): the guard it
 deploys, and when its validate passes.
 */
module FuseWithdrawalGuard {
  import opened Bytes
  import opened Guards

  const E18: nat := 1000000000000000000

  const DEPOSITS: seq<Account> := [
    RariPool8Fei, RariPool8Dai, RariPool8Lusd, RariPool79Fei, RariPool128Fei,
    RariPool22Fei, RariPool24Fei, RariPool18Fei, RariPool6Fei, TurboFuse]

  const DESTINATIONS: seq<Account> := [
    DaiFixedPricePSM, DaiFixedPricePSM, LusdPSM, DaiFixedPricePSM, DaiFixedPricePSM,
    DaiFixedPricePSM, DaiFixedPricePSM, DaiFixedPricePSM, DaiFixedPricePSM, DaiFixedPricePSM]

  const UNDERLYINGS: seq<Token> := [Fei, Dai, Lusd, Fei, Fei, Fei, Fei, Fei, Fei, Fei]

  const LIQUIDITY_TO_LEAVE: seq<nat> := [E18 * 191000, E18 * 64000, E18 * 4000, E18 * 100000, 0, 0, 0, 0, 0, 0]

  /** What each amount must exceed before the guard is fired. */
  const MINIMA: seq<nat> := [
    E18 * 2700000, E18 * 120000, E18 * 900000, E18 * 1100000, E18 * 20000,
    E18 * 20000, E18 * 500, E18 * 20000, E18 * 100, E18 * 10000000]

  const LUSD_FLOOR: nat := E18 * 900000
  const DAI_FLOOR: nat := E18 * 120000
  const FEI_FLOOR: nat := E18 * 13800000

  /** The deployed guard; the deposits' markets are what the chain says they are. */
  function Deployed(sources: seq<Account>): (es: seq<Entry>)
    requires |sources| == |DEPOSITS|
    ensures |es| == |DEPOSITS|
  {
    seq(|DEPOSITS|, i requires 0 <= i < |DEPOSITS| =>
      Entry(DEPOSITS[i], sources[i], DESTINATIONS[i], UNDERLYINGS[i], LIQUIDITY_TO_LEAVE[i]))
  }

  // ---------- validate ----------

  ghost predicate AllAbove(es: seq<Entry>, p: Pcv, minima: seq<nat>)
    requires |minima| == |es|
  {
    forall i :: 0 <= i < |es| ==> GetAmountToWithdraw(es[i], p) > minima[i]
  }

  /** The last three expectations, on what the two PSMs have gained. */
  predicate Grown(before: Pcv, after: Pcv) {
    && Held(after, Lusd, LusdPSM) > LUSD_FLOOR + Held(before, Lusd, LusdPSM)
    && Held(after, Dai, DaiFixedPricePSM) > DAI_FLOOR + Held(before, Dai, DaiFixedPricePSM)
    && Held(after, Fei, DaiFixedPricePSM) > FEI_FLOOR + Held(before, Fei, DaiFixedPricePSM)
  }

  ghost predicate Passes(site: Site, es: seq<Entry>, p: Pcv)
    requires |es| == |MINIMA|
  {
    && AllAbove(es, p, MINIMA)
    && var r := Rounds(site, es, p, |es|);
       r.Some? && FirstReady(es, r.value) == |es| && Grown(p, r.value)
  }

  method Above(es: seq<Entry>, p: Pcv, minima: seq<nat>) returns (ok: bool)
    requires |minima| == |es|
    ensures ok <==> AllAbove(es, p, minima)
  {
    var i := 0;
    while i < |es|
      invariant i <= |es| && forall j :: 0 <= j < i ==> GetAmountToWithdraw(es[j], p) > minima[j]
    {
      if GetAmountToWithdraw(es[i], p) <= minima[i] {
        return false;
      }
      i := i + 1;
    }
    ok := true;
  }

  method AllZero(es: seq<Entry>, p: Pcv) returns (ok: bool)
    ensures ok <==> FirstReady(es, p) == |es|
  {
    var i := 0;
    while i < |es|
      invariant i <= |es| && forall j :: 0 <= j < i ==> GetAmountToWithdraw(es[j], p) == 0
    {
      if GetAmountToWithdraw(es[i], p) != 0 {
        return false;
      }
      i := i + 1;
    }
    ok := true;
  }

  lemma NextRound(site: Site, es: seq<Entry>, p: Pcv, n: nat)
    requires n > 0
    ensures Rounds(site, es, p, n) ==
            (match Protec(site, es, p) case None => None case Some(q) => Rounds(site, es, q, n - 1))
  {
  }

  /** Each round expects the check to hold and then fires; a failed expectation or a revert ends it. */
  method FireEach(sentinel: Sentinel, n: nat) returns (ok: bool)
    modifies sentinel
    ensures ok <==> Rounds(sentinel.site, sentinel.es, old(sentinel.pcv), n).Some?
    ensures ok ==> sentinel.pcv == Rounds(sentinel.site, sentinel.es, old(sentinel.pcv), n).value
  {
    var i := 0;
    while i < n
      invariant i <= n
      invariant Rounds(sentinel.site, sentinel.es, old(sentinel.pcv), n)
             == Rounds(sentinel.site, sentinel.es, sentinel.pcv, n - i)
    {
      NextRound(sentinel.site, sentinel.es, sentinel.pcv, n - i);
      var ready := sentinel.Check();
      if !ready {
        return false;
      }
      var fired := sentinel.Fire();
      if !fired {
        return false;
      }
      i := i + 1;
    }
    ok := true;
  }

  method Validate(sentinel: Sentinel) returns (ok: bool)
    requires |sentinel.es| == |MINIMA|
    modifies sentinel
    ensures ok <==> Passes(sentinel.site, sentinel.es, old(sentinel.pcv))
  {
    var before := sentinel.pcv;
    ok := Above(sentinel.es, sentinel.pcv, MINIMA);
    if !ok {
      return;
    }
    ok := FireEach(sentinel, |sentinel.es|);
    if !ok {
      return;
    }
    ok := AllZero(sentinel.es, sentinel.pcv);
    if !ok {
      return;
    }
    if Held(sentinel.pcv, Lusd, LusdPSM) <= LUSD_FLOOR + Held(before, Lusd, LusdPSM) {
      return false;
    }
    if Held(sentinel.pcv, Dai, DaiFixedPricePSM) <= DAI_FLOOR + Held(before, Dai, DaiFixedPricePSM) {
      return false;
    }
    ok := Held(sentinel.pcv, Fei, DaiFixedPricePSM) > FEI_FLOOR + Held(before, Fei, DaiFixedPricePSM);
  }

  // ---------- What the rounds bring in ----------

  /** What the amounts seen from index k on would bring to an account. */
  function Flow(es: seq<Entry>, p: Pcv, k: nat, t: Token, a: Account): nat
    requires k <= |es|
    decreases |es| - k
  {
    if k == |es| then 0
    else (if es[k].underlying == t && es[k].destination == a then GetAmountToWithdraw(es[k], p) else 0)
         + Flow(es, p, k + 1, t, a)
  }

  lemma {:induction false} SeenBrings(es: seq<Entry>, p: Pcv, k: nat, t: Token, a: Account)
    requires k <= |es|
    ensures Gained(Seen(es, p, k), t, a) == Flow(es, p, k, t, a)
    decreases |es| - k
  {
    if k < |es| {
      SeenBrings(es, p, k + 1, t, a);
      var amount, rest := GetAmountToWithdraw(es[k], p), Seen(es, p, k + 1);
      var share := if es[k].underlying == t && es[k].destination == a then amount else 0;
      assert Flow(es, p, k, t, a) == share + Flow(es, p, k + 1, t, a);
      if amount > 0 {
        TakesAdd(Take(es[k], amount), rest, t, a);
        assert Gained([Take(es[k], amount)] + rest, t, a) == share + Gained(rest, t, a);
      }
    }
  }

  lemma {:induction false} SeenTakesNothing(es: seq<Entry>, p: Pcv, k: nat, t: Token, a: Account)
    requires k <= |es| && forall i :: k <= i < |es| ==> es[i].source != a
    ensures Given(Seen(es, p, k), t, a) == 0
    decreases |es| - k
  {
    if k < |es| {
      SeenTakesNothing(es, p, k + 1, t, a);
      if GetAmountToWithdraw(es[k], p) > 0 {
        TakesAdd(Take(es[k], GetAmountToWithdraw(es[k], p)), Seen(es, p, k + 1), t, a);
      }
    }
  }

  lemma {:induction false} SeenCounts(es: seq<Entry>, p: Pcv, k: nat)
    requires k <= |es|
    ensures |Seen(es, p, k)| == |es| - k <==> forall i :: k <= i < |es| ==> GetAmountToWithdraw(es[i], p) > 0
    ensures |Seen(es, p, k)| <= |es| - k
    decreases |es| - k
  {
    if k < |es| {
      SeenCounts(es, p, k + 1);
    }
  }

  /** After a full drain an account that is nobody's source has gained exactly the amounts paired with it. */
  lemma DrainBrings(site: Site, es: seq<Entry>, p: Pcv, t: Token, a: Account)
    requires Separate(es) && Drain(site, es, p).ok
    requires forall i :: 0 <= i < |es| ==> es[i].source != a
    ensures Held(Drain(site, es, p).end, t, a) == Held(p, t, a) + Flow(es, p, 0, t, a)
  {
    DrainTakesWhatIsSeen(site, es, p);
    DrainConserves(site, es, p, t, a);
    SeenBrings(es, p, 0, t, a);
    SeenTakesNothing(es, p, 0, t, a);
  }

  // ---------- The deployed guard's validate ----------

  /** The minima paired with an account, from index k on. */
  function MinimaFor(k: nat, t: Token, a: Account): nat
    requires k <= |MINIMA|
    decreases |MINIMA| - k
  {
    if k == |MINIMA| then 0
    else (if UNDERLYINGS[k] == t && DESTINATIONS[k] == a then MINIMA[k] + 1 else 0) + MinimaFor(k + 1, t, a)
  }

  lemma {:induction false} FlowAbove(es: seq<Entry>, p: Pcv, k: nat, t: Token, a: Account)
    requires k <= |es| == |MINIMA| && AllAbove(es, p, MINIMA)
    requires forall i :: 0 <= i < |es| ==> es[i].destination == DESTINATIONS[i] && es[i].underlying == UNDERLYINGS[i]
    ensures Flow(es, p, k, t, a) >= MinimaFor(k, t, a)
    decreases |es| - k
  {
    if k < |es| {
      FlowAbove(es, p, k + 1, t, a);
    }
  }

  lemma MinimaExceedFloors()
    ensures MinimaFor(0, Lusd, LusdPSM) > LUSD_FLOOR
    ensures MinimaFor(0, Dai, DaiFixedPricePSM) > DAI_FLOOR
    ensures MinimaFor(0, Fei, DaiFixedPricePSM) > FEI_FLOOR
  {
  }

  /** The minima alone already exceed the floors. */
  lemma FlowsExceedFloors(es: seq<Entry>, p: Pcv)
    requires |es| == |DEPOSITS| && AllAbove(es, p, MINIMA)
    requires forall i :: 0 <= i < |es| ==> es[i].destination == DESTINATIONS[i] && es[i].underlying == UNDERLYINGS[i]
    ensures Flow(es, p, 0, Lusd, LusdPSM) > LUSD_FLOOR
    ensures Flow(es, p, 0, Dai, DaiFixedPricePSM) > DAI_FLOOR
    ensures Flow(es, p, 0, Fei, DaiFixedPricePSM) > FEI_FLOOR
  {
    MinimaExceedFloors();
    FlowAbove(es, p, 0, Lusd, LusdPSM);
    FlowAbove(es, p, 0, Dai, DaiFixedPricePSM);
    FlowAbove(es, p, 0, Fei, DaiFixedPricePSM);
  }

  /**
   On markets that are separate, the whole validate passes exactly when its first ten expectations
   hold, the sentinel knows the guard, both PSMs are safe addresses, and no deposit is paused or the
   guardian may unpause: the ten rounds, the zeroes and the gains then follow.
   */
  lemma {:induction false} PassesIffReadyAndAllowed(site: Site, sources: seq<Account>, p: Pcv)
    requires |sources| == |DEPOSITS| && Separate(Deployed(sources))
    ensures Passes(site, Deployed(sources), p) <==>
              && AllAbove(Deployed(sources), p, MINIMA)
              && site.knighted && DaiFixedPricePSM in site.safe && LusdPSM in site.safe
              && (site.mayUnpause || forall i :: 0 <= i < |DEPOSITS| ==> DEPOSITS[i] !in p.paused)
  {
    PassesIffAllAllowed(site, sources, p);
    AllAllowedIff(site, sources, p);
  }

  lemma AllAllowedIff(site: Site, sources: seq<Account>, p: Pcv)
    requires |sources| == |DEPOSITS|
    ensures (forall i :: 0 <= i < |DEPOSITS| ==> Allowed(site, p, Deployed(sources)[i])) <==>
              && site.knighted && DaiFixedPricePSM in site.safe && LusdPSM in site.safe
              && (site.mayUnpause || forall i :: 0 <= i < |DEPOSITS| ==> DEPOSITS[i] !in p.paused)
  {
    var es := Deployed(sources);
    assert es[0].destination == DaiFixedPricePSM && es[2].destination == LusdPSM;
    assert forall i :: 0 <= i < |DEPOSITS| ==> es[i].deposit == DEPOSITS[i];
  }

  lemma {:induction false} PassesIffAllAllowed(site: Site, sources: seq<Account>, p: Pcv)
    requires |sources| == |DEPOSITS| && Separate(Deployed(sources))
    ensures var es := Deployed(sources);
            Passes(site, es, p) <==> AllAbove(es, p, MINIMA) && forall i :: 0 <= i < |es| ==> Allowed(site, p, es[i])
  {
    var es := Deployed(sources);
    if AllAbove(es, p, MINIMA) {
      DrainTakesWhatIsSeen(site, es, p);
      SeenCounts(es, p, 0);
      var d := Drain(site, es, p);
      if d.ok {
        DrainIsRounds(site, es, p);
        GrownAfterDrain(site, sources, p);
      } else if Rounds(site, es, p, |es|).Some? && FirstReady(es, Rounds(site, es, p, |es|).value) == |es| {
        RoundsAreADrain(site, es, p, |es|);
      }
    }
  }

  lemma {:induction false} SeenInOrder(es: seq<Entry>, p: Pcv, k: nat)
    requires k <= |es| && forall i :: k <= i < |es| ==> GetAmountToWithdraw(es[i], p) > 0
    ensures |Seen(es, p, k)| == |es| - k && forall i :: k <= i < |es| ==> Seen(es, p, k)[i - k].e == es[i]
    decreases |es| - k
  {
    if k < |es| {
      SeenInOrder(es, p, k + 1);
    }
  }

  /** A passing validate takes from all ten deposits, in their order. */
  lemma {:induction false} PassingTakesFromAll(site: Site, sources: seq<Account>, p: Pcv)
    requires |sources| == |DEPOSITS| && Separate(Deployed(sources)) && Passes(site, Deployed(sources), p)
    ensures var r := Drain(site, Deployed(sources), p);
            && Rounds(site, Deployed(sources), p, |DEPOSITS|) == Some(r.end)
            && |r.taken| == |DEPOSITS|
            && forall i :: 0 <= i < |DEPOSITS| ==> r.taken[i].e.deposit == DEPOSITS[i]
  {
    var es := Deployed(sources);
    RoundsAreADrain(site, es, p, |es|);
    DrainTakesWhatIsSeen(site, es, p);
    SeenInOrder(es, p, 0);
    var taken := Drain(site, es, p).taken;
    forall i | 0 <= i < |DEPOSITS|
      ensures taken[i].e.deposit == DEPOSITS[i]
    {
      assert Seen(es, p, 0)[i - 0].e == es[i];
    }
  }

  /** A passing validate leaves none of the ten deposits paused, and unpauses no other. */
  lemma {:induction false} PassingUnpauses(site: Site, sources: seq<Account>, p: Pcv)
    requires |sources| == |DEPOSITS| && Separate(Deployed(sources)) && Passes(site, Deployed(sources), p)
    ensures var end := Rounds(site, Deployed(sources), p, |DEPOSITS|).value;
            end.paused == p.paused - set i | 0 <= i < |DEPOSITS| :: DEPOSITS[i]
  {
    PassingTakesFromAll(site, sources, p);
    DrainUnpauses(site, Deployed(sources), p);
    SameDeposits(Drain(site, Deployed(sources), p).taken);
  }

  lemma SameDeposits(taken: seq<Take>)
    requires |taken| == |DEPOSITS| && forall i :: 0 <= i < |DEPOSITS| ==> taken[i].e.deposit == DEPOSITS[i]
    ensures (set k | 0 <= k < |taken| :: taken[k].e.deposit) == set i | 0 <= i < |DEPOSITS| :: DEPOSITS[i]
  {
  }

  lemma GrownAfterDrain(site: Site, sources: seq<Account>, p: Pcv)
    requires |sources| == |DEPOSITS| && Separate(Deployed(sources))
    requires AllAbove(Deployed(sources), p, MINIMA) && Drain(site, Deployed(sources), p).ok
    ensures Grown(p, Drain(site, Deployed(sources), p).end)
  {
    var es := Deployed(sources);
    PsmsAreDownstream(sources);
    DrainBrings(site, es, p, Lusd, LusdPSM);
    DrainBrings(site, es, p, Dai, DaiFixedPricePSM);
    DrainBrings(site, es, p, Fei, DaiFixedPricePSM);
    FlowsExceedFloors(es, p);
  }

  lemma PsmsAreDownstream(sources: seq<Account>)
    requires |sources| == |DEPOSITS| && Downstream(Deployed(sources))
    ensures forall i :: 0 <= i < |DEPOSITS| ==> Deployed(sources)[i].source !in {LusdPSM, DaiFixedPricePSM}
  {
    var es := Deployed(sources);
    assert es[0].destination == DaiFixedPricePSM && es[2].destination == LusdPSM;
  }
}
