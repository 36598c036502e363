/**
 The withdrawal guards (contracts/sentinel/guards/FuseWithdrawalGuard.sol and
 MaxFeiWithdrawalGuard.sol), the sentinel and the guardian that carry out their actions
 (contracts/sentinel/PCVSentinel.sol, contracts/pcv/PCVGuardian.sol), and the scripts' check/protec loops.
 The second guard is the first with FEI as every underlying and nothing to leave.
 */
module Guards {
  import opened Amounts
  import opened Bytes

  datatype Token = Fei | Dai | Lusd | OtherToken(id: nat)

  datatype Account =
    | RariPool8Fei | RariPool8Dai | RariPool8Lusd | RariPool79Fei | RariPool128Fei
    | RariPool22Fei | RariPool24Fei | RariPool18Fei | RariPool6Fei | TurboFuse
    | LusdPSM | DaiFixedPricePSM
    | Contract(id: nat)

  /** One deposit of a guard: where its liquidity lies, where withdrawals go, and what must stay. */
  datatype Entry = Entry(deposit: Account, source: Account, destination: Account, underlying: Token,
                         liquidityToLeave: nat)

  /** What each deposit has lent out, who holds which tokens, and which deposits are paused. */
  datatype Pcv = Pcv(deposited: map<Account, nat>, held: map<(Token, Account), nat>, paused: set<Account>)

  /**
   The guardian's safe addresses, whether it has the role that unpauses a deposit, and whether the
   sentinel knows the guard.
   */
  datatype Site = Site(safe: set<Account>, mayUnpause: bool, knighted: bool)

  function Deposited(p: Pcv, d: Account): nat {
    At(p.deposited, d)
  }

  function Held(p: Pcv, t: Token, a: Account): nat {
    At(p.held, (t, a))
  }

  const MIN_WITHDRAW: nat := 100000000000000000000

  function GetAmountToWithdraw(e: Entry, p: Pcv): (amount: nat)
    ensures amount <= Deposited(p, e.deposit) && amount <= Held(p, e.underlying, e.source)
    ensures amount == 0 || amount > MIN_WITHDRAW
  {
    var liquidity := Held(p, e.underlying, e.source);
    if liquidity <= e.liquidityToLeave then 0
    else
      var available := liquidity - e.liquidityToLeave;
      var withdrawAmount := if Deposited(p, e.deposit) > available then available else Deposited(p, e.deposit);
      if withdrawAmount > MIN_WITHDRAW then withdrawAmount else 0
  }

  /** What may be taken: more than dust, no more than is deposited, and leaving the liquidity to leave. */
  ghost predicate Takable(e: Entry, p: Pcv, n: nat) {
    && 100 * 1000000000000000000 < n <= Deposited(p, e.deposit)
    && n + e.liquidityToLeave <= Held(p, e.underlying, e.source)
  }

  /** The amount is the largest that may be taken, and nothing exactly when none may. */
  lemma AmountIsLargest(e: Entry, p: Pcv)
    ensures GetAmountToWithdraw(e, p) > 0 <==> exists n: nat :: Takable(e, p, n)
    ensures GetAmountToWithdraw(e, p) > 0 ==> Takable(e, p, GetAmountToWithdraw(e, p))
    ensures forall n: nat :: Takable(e, p, n) ==> n <= GetAmountToWithdraw(e, p)
  {
    if GetAmountToWithdraw(e, p) > 0 {
      assert Takable(e, p, GetAmountToWithdraw(e, p));
    }
  }

  /** The first deposit something can be withdrawn from, or the length when there is none. */
  function FirstReady(es: seq<Entry>, p: Pcv): (i: nat)
    ensures i <= |es|
    ensures i < |es| ==> GetAmountToWithdraw(es[i], p) > 0
    ensures forall j :: 0 <= j < i ==> GetAmountToWithdraw(es[j], p) == 0
    decreases |es|
  {
    if es == [] then 0
    else if GetAmountToWithdraw(es[0], p) > 0 then 0
    else
      var rest := FirstReady(es[1..], p);
      assert forall j :: 1 <= j < |es| ==> es[j] == es[1..][j - 1];
      1 + rest
  }

  /** The deposit is unpaused if it was paused, and pays from its source to its destination. */
  function Withdraw(e: Entry, p: Pcv, amount: nat): Pcv
    requires amount <= Deposited(p, e.deposit) && amount <= Held(p, e.underlying, e.source)
  {
    var left := p.(deposited := p.deposited[e.deposit := Deposited(p, e.deposit) - amount],
                   held := p.held[(e.underlying, e.source) := Held(p, e.underlying, e.source) - amount],
                   paused := p.paused - {e.deposit});
    left.(held := left.held[(e.underlying, e.destination) := Held(left, e.underlying, e.destination) + amount])
  }

  /** The guardian unpauses a paused deposit before it withdraws, if it has the role to. */
  predicate Allowed(site: Site, p: Pcv, e: Entry) {
    site.knighted && e.destination in site.safe && (e.deposit !in p.paused || site.mayUnpause)
  }

  /** One protec call; None when it reverts. */
  function Protec(site: Site, es: seq<Entry>, p: Pcv): Option<Pcv> {
    var i := FirstReady(es, p);
    if i == |es| || !Allowed(site, p, es[i]) then None
    else Some(Withdraw(es[i], p, GetAmountToWithdraw(es[i], p)))
  }

  // ---------- The drain loop as a function ----------

  datatype Take = Take(e: Entry, amount: nat)

  /** The end of a drain: what was taken, in order, and whether no call reverted. */
  datatype Drained = Drained(end: Pcv, taken: seq<Take>, ok: bool)

  function Outstanding(es: seq<Entry>, p: Pcv): nat {
    if es == [] then 0 else Deposited(p, es[0].deposit) + Outstanding(es[1..], p)
  }

  /** A withdrawal lowers what its own deposit has out, and raises nothing. */
  lemma {:induction false} WithdrawLowers(es: seq<Entry>, p: Pcv, e: Entry, amount: nat)
    requires 0 < amount <= Deposited(p, e.deposit) && amount <= Held(p, e.underlying, e.source)
    ensures Outstanding(es, Withdraw(e, p, amount)) <= Outstanding(es, p)
    ensures e in es ==> Outstanding(es, Withdraw(e, p, amount)) < Outstanding(es, p)
  {
    if es != [] {
      WithdrawLowers(es[1..], p, e, amount);
    }
  }

  function Drain(site: Site, es: seq<Entry>, p: Pcv): Drained
    decreases Outstanding(es, p)
  {
    var i := FirstReady(es, p);
    if i == |es| then Drained(p, [], true)
    else if !Allowed(site, p, es[i]) then Drained(p, [], false)
    else
      var amount := GetAmountToWithdraw(es[i], p);
      WithdrawLowers(es, p, es[i], amount);
      var rest := Drain(site, es, Withdraw(es[i], p, amount));
      Drained(rest.end, [Take(es[i], amount)] + rest.taken, rest.ok)
  }

  // ---------- Conservation ----------

  function Gained(taken: seq<Take>, t: Token, a: Account): nat {
    if taken == [] then 0
    else (if taken[0].e.underlying == t && taken[0].e.destination == a then taken[0].amount else 0)
         + Gained(taken[1..], t, a)
  }

  function Given(taken: seq<Take>, t: Token, a: Account): nat {
    if taken == [] then 0
    else (if taken[0].e.underlying == t && taken[0].e.source == a then taken[0].amount else 0) + Given(taken[1..], t, a)
  }

  function TakenFrom(taken: seq<Take>, d: Account): nat {
    if taken == [] then 0
    else (if taken[0].e.deposit == d then taken[0].amount else 0) + TakenFrom(taken[1..], d)
  }

  lemma WithdrawMoves(e: Entry, p: Pcv, amount: nat, t: Token, a: Account)
    requires amount <= Deposited(p, e.deposit) && amount <= Held(p, e.underlying, e.source)
    ensures var q := Withdraw(e, p, amount);
            && (Held(q, t, a) + (if e.underlying == t && e.source == a then amount else 0)
             == Held(p, t, a) + (if e.underlying == t && e.destination == a then amount else 0))
            && Deposited(q, a) + (if e.deposit == a then amount else 0) == Deposited(p, a)
  {
  }

  lemma TakesAdd(one: Take, rest: seq<Take>, t: Token, a: Account)
    ensures Gained([one] + rest, t, a) ==
            (if one.e.underlying == t && one.e.destination == a then one.amount else 0) + Gained(rest, t, a)
    ensures Given([one] + rest, t, a) ==
            (if one.e.underlying == t && one.e.source == a then one.amount else 0) + Given(rest, t, a)
    ensures TakenFrom([one] + rest, a) == (if one.e.deposit == a then one.amount else 0) + TakenFrom(rest, a)
  {
    assert ([one] + rest)[1..] == rest;
  }

  /** Nothing is lost: every holder gains what was sent to it and loses what was taken from it. */
  lemma {:induction false} DrainConserves(site: Site, es: seq<Entry>, p: Pcv, t: Token, a: Account)
    ensures var r := Drain(site, es, p);
            && Held(r.end, t, a) + Given(r.taken, t, a) == Held(p, t, a) + Gained(r.taken, t, a)
            && Deposited(r.end, a) + TakenFrom(r.taken, a) == Deposited(p, a)
    decreases Outstanding(es, p)
  {
    var i := FirstReady(es, p);
    if i < |es| && Allowed(site, p, es[i]) {
      var amount := GetAmountToWithdraw(es[i], p);
      WithdrawLowers(es, p, es[i], amount);
      DrainConserves(site, es, Withdraw(es[i], p, amount), t, a);
      WithdrawMoves(es[i], p, amount, t, a);
      TakesAdd(Take(es[i], amount), Drain(site, es, Withdraw(es[i], p, amount)).taken, t, a);
    }
  }

  /** The drain ends without a revert only when nothing can be withdrawn any more. */
  lemma {:induction false} DrainEmpties(site: Site, es: seq<Entry>, p: Pcv)
    ensures Drain(site, es, p).ok ==>
              forall i :: 0 <= i < |es| ==> GetAmountToWithdraw(es[i], Drain(site, es, p).end) == 0
    decreases Outstanding(es, p)
  {
    var i := FirstReady(es, p);
    if i < |es| && Allowed(site, p, es[i]) {
      var amount := GetAmountToWithdraw(es[i], p);
      WithdrawLowers(es, p, es[i], amount);
      DrainEmpties(site, es, Withdraw(es[i], p, amount));
    }
  }

  /** A drain unpauses just the deposits it takes from. */
  lemma {:induction false} DrainUnpauses(site: Site, es: seq<Entry>, p: Pcv)
    ensures var r := Drain(site, es, p);
            r.end.paused == p.paused - set k | 0 <= k < |r.taken| :: r.taken[k].e.deposit
    decreases Outstanding(es, p)
  {
    var i := FirstReady(es, p);
    if i < |es| && Allowed(site, p, es[i]) {
      var amount := GetAmountToWithdraw(es[i], p);
      WithdrawLowers(es, p, es[i], amount);
      var q := Withdraw(es[i], p, amount);
      DrainUnpauses(site, es, q);
      DepositsAdd(Take(es[i], amount), Drain(site, es, q).taken);
    }
  }

  lemma DepositsAdd(one: Take, rest: seq<Take>)
    ensures var all := [one] + rest;
            (set k | 0 <= k < |all| :: all[k].e.deposit) ==
            {one.e.deposit} + set k | 0 <= k < |rest| :: rest[k].e.deposit
  {
    var all := [one] + rest;
    assert all[0] == one && forall k :: 0 <= k < |rest| ==> all[k + 1] == rest[k];
    assert forall k :: 0 < k < |all| ==> all[k] == rest[k - 1];
  }

  // ---------- At most one round a deposit ----------

  /** Withdrawn tokens never land where a guard looks for liquidity. */
  ghost predicate Downstream(es: seq<Entry>) {
    forall i, j :: 0 <= i < |es| && 0 <= j < |es| ==> es[i].destination != es[j].source
  }

  function Ready(es: seq<Entry>, p: Pcv): nat {
    if es == [] then 0 else (if GetAmountToWithdraw(es[0], p) > 0 then 1 else 0) + Ready(es[1..], p)
  }

  /** A round leaves its own deposit with nothing withdrawable, and no deposit with more than before. */
  lemma RoundOnlyLowers(e: Entry, p: Pcv, other: Entry)
    requires GetAmountToWithdraw(e, p) > 0
    requires e.destination !in {e.source, other.source}
    ensures var q := Withdraw(e, p, GetAmountToWithdraw(e, p));
            && GetAmountToWithdraw(e, q) == 0
            && GetAmountToWithdraw(other, q) <= GetAmountToWithdraw(other, p)
  {
    var amount := GetAmountToWithdraw(e, p);
    var q := Withdraw(e, p, amount);
    assert Held(q, e.underlying, e.source) == Held(p, e.underlying, e.source) - amount;
    assert Held(q, other.underlying, other.source) <= Held(p, other.underlying, other.source);
  }

  lemma {:induction false} ReadyFalls(es: seq<Entry>, e: Entry, p: Pcv)
    requires GetAmountToWithdraw(e, p) > 0 && e.destination != e.source
    requires forall i :: 0 <= i < |es| ==> e.destination != es[i].source
    ensures var q := Withdraw(e, p, GetAmountToWithdraw(e, p));
            Ready(es, q) <= Ready(es, p) && (e in es ==> Ready(es, q) < Ready(es, p))
  {
    if es != [] {
      RoundOnlyLowers(e, p, es[0]);
      ReadyFalls(es[1..], e, p);
    }
  }

  /** However many deposits share their liquidity, the loop takes at most one round for each ready one. */
  lemma {:induction false} DrainIsShort(site: Site, es: seq<Entry>, p: Pcv)
    requires Downstream(es)
    ensures |Drain(site, es, p).taken| <= Ready(es, p)
    decreases Outstanding(es, p)
  {
    var i := FirstReady(es, p);
    if i < |es| && Allowed(site, p, es[i]) {
      var amount := GetAmountToWithdraw(es[i], p);
      WithdrawLowers(es, p, es[i], amount);
      ReadyFalls(es, es[i], p);
      DrainIsShort(site, es, Withdraw(es[i], p, amount));
    }
  }

  // ---------- Exactly the amounts seen at the start ----------

  /** Deposits are distinct, and no two share their liquidity. */
  ghost predicate Separate(es: seq<Entry>) {
    && Downstream(es)
    && forall i, j :: 0 <= i < j < |es| ==> es[i].deposit != es[j].deposit && es[i].source != es[j].source
  }

  /** The withdrawals seen from a state, from index k on. */
  function Seen(es: seq<Entry>, p: Pcv, k: nat): seq<Take>
    requires k <= |es|
    decreases |es| - k
  {
    if k == |es| then []
    else if GetAmountToWithdraw(es[k], p) > 0 then [Take(es[k], GetAmountToWithdraw(es[k], p))] + Seen(es, p, k + 1)
    else Seen(es, p, k + 1)
  }

  lemma {:induction false} SeenFromFirst(es: seq<Entry>, p: Pcv, k: nat)
    requires k <= FirstReady(es, p)
    ensures Seen(es, p, k) == Seen(es, p, FirstReady(es, p))
    decreases |es| - k
  {
    if k < FirstReady(es, p) {
      SeenFromFirst(es, p, k + 1);
    }
  }

  lemma {:induction false} SeenSame(es: seq<Entry>, p: Pcv, q: Pcv, k: nat)
    requires k <= |es|
    requires forall j :: k <= j < |es| ==> GetAmountToWithdraw(es[j], q) == GetAmountToWithdraw(es[j], p)
    ensures Seen(es, q, k) == Seen(es, p, k)
    decreases |es| - k
  {
    if k < |es| {
      SeenSame(es, p, q, k + 1);
    }
  }

  /** With separate deposits a round zeroes its own deposit's amount and leaves the others as they were. */
  lemma RoundZeroesOnlyItsOwn(es: seq<Entry>, p: Pcv, i: nat)
    requires Separate(es) && i < |es| && GetAmountToWithdraw(es[i], p) > 0
    ensures var q := Withdraw(es[i], p, GetAmountToWithdraw(es[i], p));
            forall j :: 0 <= j < |es| ==>
               GetAmountToWithdraw(es[j], q) == if j == i then 0 else GetAmountToWithdraw(es[j], p)
  {
    var amount := GetAmountToWithdraw(es[i], p);
    var q := Withdraw(es[i], p, amount);
    forall j | 0 <= j < |es|
      ensures GetAmountToWithdraw(es[j], q) == if j == i then 0 else GetAmountToWithdraw(es[j], p)
    {
      if j == i {
        RoundOnlyLowers(es[i], p, es[i]);
      } else {
        assert es[j].deposit != es[i].deposit && es[j].source != es[i].source && es[i].destination != es[j].source;
        assert Deposited(q, es[j].deposit) == Deposited(p, es[j].deposit);
        assert Held(q, es[j].underlying, es[j].source) == Held(p, es[j].underlying, es[j].source);
      }
    }
  }

  /**
   With separate deposits the loop takes exactly the amounts seen at its start, each once and in the
   guard's order, and it completes exactly when each of these withdrawals is allowed at the start:
   a paused deposit only needs a guardian that may unpause it.
   */
  lemma {:induction false} DrainTakesWhatIsSeen(site: Site, es: seq<Entry>, p: Pcv)
    requires Separate(es)
    ensures var r := Drain(site, es, p);
            && r.taken <= Seen(es, p, 0)
            && (r.ok <==> forall i :: 0 <= i < |es| && GetAmountToWithdraw(es[i], p) > 0 ==> Allowed(site, p, es[i]))
            && (r.ok ==> r.taken == Seen(es, p, 0))
    decreases Outstanding(es, p)
  {
    var i := FirstReady(es, p);
    SeenFromFirst(es, p, 0);
    if i < |es| && Allowed(site, p, es[i]) {
      var amount := GetAmountToWithdraw(es[i], p);
      var q := Withdraw(es[i], p, amount);
      WithdrawLowers(es, p, es[i], amount);
      DrainTakesWhatIsSeen(site, es, q);
      RoundZeroesOnlyItsOwn(es, p, i);
      SeenSkip(es, p, q, i);
    }
  }

  lemma SeenSkip(es: seq<Entry>, p: Pcv, q: Pcv, i: nat)
    requires i < |es| && i == FirstReady(es, p)
    requires forall j :: 0 <= j < |es| ==>
               GetAmountToWithdraw(es[j], q) == if j == i then 0 else GetAmountToWithdraw(es[j], p)
    ensures Seen(es, q, 0) == Seen(es, p, i + 1)
  {
    SeenSame(es, p, q, i + 1);
    SeenZeroes(es, q, 0, i + 1);
  }

  lemma {:induction false} SeenZeroes(es: seq<Entry>, p: Pcv, k: nat, m: nat)
    requires k <= m <= |es| && forall j :: k <= j < m ==> GetAmountToWithdraw(es[j], p) == 0
    ensures Seen(es, p, k) == Seen(es, p, m)
    decreases m - k
  {
    if k < m {
      SeenZeroes(es, p, k + 1, m);
    }
  }

  // ---------- The loops that fire the sentinel ----------

  /** A number of check-and-protec rounds, each of which must find something to do. */
  function Rounds(site: Site, es: seq<Entry>, p: Pcv, n: nat): Option<Pcv>
    decreases n
  {
    if n == 0 then Some(p)
    else
      match Protec(site, es, p)
      case None => None
      case Some(q) => Rounds(site, es, q, n - 1)
  }

  /** A drain's withdrawals are as many rounds. */
  lemma {:induction false} DrainIsRounds(site: Site, es: seq<Entry>, p: Pcv)
    requires Drain(site, es, p).ok
    ensures Rounds(site, es, p, |Drain(site, es, p).taken|) == Some(Drain(site, es, p).end)
    ensures FirstReady(es, Drain(site, es, p).end) == |es|
    decreases Outstanding(es, p)
  {
    var i := FirstReady(es, p);
    if i < |es| {
      var amount := GetAmountToWithdraw(es[i], p);
      WithdrawLowers(es, p, es[i], amount);
      DrainIsRounds(site, es, Withdraw(es[i], p, amount));
    }
  }

  /** Counted rounds that leave nothing ready are a drain with as many withdrawals. */
  lemma {:induction false} RoundsAreADrain(site: Site, es: seq<Entry>, p: Pcv, n: nat)
    requires Rounds(site, es, p, n).Some? && FirstReady(es, Rounds(site, es, p, n).value) == |es|
    ensures var d := Drain(site, es, p); d.ok && |d.taken| == n && d.end == Rounds(site, es, p, n).value
    decreases n
  {
    if n > 0 {
      RoundsAreADrain(site, es, Protec(site, es, p).value, n - 1);
    }
  }

  /** The chain a script acts on, with one guard's deposits. */
  class Sentinel {
    const site: Site
    const es: seq<Entry>
    var pcv: Pcv

    constructor (site: Site, es: seq<Entry>, pcv: Pcv)
      ensures this.site == site && this.es == es && this.pcv == pcv
    {
      this.site := site;
      this.es := es;
      this.pcv := pcv;
    }

    method Check() returns (ready: bool)
      ensures ready <==> FirstReady(es, pcv) < |es|
    {
      var i := 0;
      while i < |es|
        invariant i <= |es| && forall j :: 0 <= j < i ==> GetAmountToWithdraw(es[j], pcv) == 0
      {
        if GetAmountToWithdraw(es[i], pcv) > 0 {
          return true;
        }
        i := i + 1;
      }
      ready := false;
    }

    /** Withdraw for the first deposit that is ready; a revert changes nothing. */
    method Fire() returns (ok: bool)
      modifies this
      ensures ok <==> Protec(site, es, old(pcv)).Some?
      ensures pcv == if ok then Protec(site, es, old(pcv)).value else old(pcv)
    {
      var i := FirstReady(es, pcv);
      if i == |es| || !Allowed(site, pcv, es[i]) {
        return false;
      }
      pcv := Withdraw(es[i], pcv, GetAmountToWithdraw(es[i], pcv));
      ok := true;
    }

    /** The scripts' loop: protec for as long as the guard's check says so. */
    method DrainAll() returns (actions: nat, ok: bool)
      modifies this
      ensures var d := Drain(site, es, old(pcv)); ok == d.ok && actions == |d.taken| && pcv == d.end
    {
      actions := 0;
      ok := true;
      var more := Check();
      while more
        invariant more <==> FirstReady(es, pcv) < |es|
        invariant var d := Drain(site, es, old(pcv)); var rest := Drain(site, es, pcv);
                  d.ok == rest.ok && d.end == rest.end && |d.taken| == actions + |rest.taken|
        invariant ok
        decreases Outstanding(es, pcv)
      {
        ghost var before := pcv;
        var i := FirstReady(es, pcv);
        ok := Fire();
        if !ok {
          return;
        }
        WithdrawLowers(es, before, es[i], GetAmountToWithdraw(es[i], before));
        actions := actions + 1;
        more := Check();
      }
    }
  }
}
