/** What every list of ledger commands keeps. */
module LedgerLaws {
  import opened Bytes
  import opened Ledger

  /** The sum of a token's balances. */
  ghost function Total(m: Holdings, t: Token): nat {
    if m == map[] then 0
    else
      var k :| k in m;
      (if k.0 == t then m[k] else 0) + Total(m - {k}, t)
  }

  function Share(m: Holdings, k: (Token, Account), t: Token): nat {
    if k.0 == t && k in m then m[k] else 0
  }

  lemma {:induction false} TotalPick(m: Holdings, k: (Token, Account), t: Token)
    requires k in m
    ensures Total(m, t) == Share(m, k, t) + Total(m - {k}, t)
  {
    var j :| j in m && Total(m, t) == Share(m, j, t) + Total(m - {j}, t);
    if j != k {
      TotalPick(m - {j}, k, t);
      TotalPick(m - {k}, j, t);
      var rest := m - {j} - {k};
      assert rest == m - {k} - {j};
      assert (m - {j})[k] == m[k] && (m - {k})[j] == m[j];
      assert Total(m - {j}, t) == Share(m, k, t) + Total(rest, t);
      assert Total(m - {k}, t) == Share(m, j, t) + Total(m - {k} - {j}, t);
      assert Total(m, t) == Share(m, j, t) + Total(m - {j}, t);
    }
  }

  lemma TotalUpdate(m: Holdings, k: (Token, Account), v: nat, t: Token)
    ensures Total(m[k := v], t) + Share(m, k, t) == Total(m, t) + if k.0 == t then v else 0
  {
    var n := m[k := v];
    TotalPick(n, k, t);
    assert n - {k} == m - {k};
    if k in m {
      TotalPick(m, k, t);
    } else {
      assert m - {k} == m;
    }
  }

  lemma TotalMoved(m: Holdings, u: Token, from: Account, to: Account, amount: nat, t: Token)
    requires amount <= Held(m, u, from)
    ensures Total(Moved(m, u, from, to, amount), t) == Total(m, t)
  {
    var left := Held(m, u, from) - amount;
    var debited := m[(u, from) := left];
    TotalUpdate(m, (u, from), left, t);
    TotalUpdate(debited, (u, to), Held(debited, u, to) + amount, t);
  }

  ghost function InAll(l: Ledger, t: Token): nat {
    Total(l.balances, t)
  }

  /** A token's supply is the sum of its balances. */
  ghost predicate Backed(l: Ledger, t: Token) {
    Supply(l, t) == InAll(l, t)
  }

  // ---------- Sums of balances ----------

  /** From l to r the balances of t gained what was minted and lost what was burned, and the kept supply with them. */
  ghost predicate Changed(l: Ledger, r: Ledger, t: Token, minted: nat, burned: nat) {
    && InAll(r, t) + burned == InAll(l, t) + minted
    && (t != Weth ==> Supply(r, t) + burned == Supply(l, t) + minted)
  }

  lemma TransferChangesNothing(l: Ledger, t: Token, from: Account, to: Account, amount: nat, u: Token)
    requires Transfer(l, t, from, to, amount).Some?
    ensures Changed(l, Transfer(l, t, from, to, amount).value, u, 0, 0)
  {
    TotalMoved(l.balances, t, from, to, amount, u);
  }

  lemma BurnChanges(l: Ledger, holder: Account, amount: nat, u: Token)
    requires BurnFei(l, holder, amount).Some?
    ensures Changed(l, BurnFei(l, holder, amount).value, u, 0, if u == Fei then amount else 0)
  {
    TotalUpdate(l.balances, (Fei, holder), Balance(l, Fei, holder) - amount, u);
  }

  lemma MintChanges(l: Ledger, holder: Account, amount: nat, u: Token)
    ensures Changed(l, MintSteth(l, holder, amount), u, if u == Steth then amount else 0, 0)
  {
    TotalUpdate(l.balances, (Steth, holder), Balance(l, Steth, holder) + amount, u);
  }

  lemma WithdrawWethChanges(l: Ledger, holder: Account, amount: nat, u: Token)
    requires WithdrawWeth(l, holder, amount).Some?
    ensures Changed(l, WithdrawWeth(l, holder, amount).value, u, 0, if u == Weth then amount else 0)
  {
    TotalUpdate(l.balances, (Weth, holder), Balance(l, Weth, holder) - amount, u);
    TransferChangesNothing(Debited(l, Weth, holder, amount), Eth, WethContract, holder, amount, u);
  }

  lemma ExitPoolChangesNothing(env: Env, l: Ledger, swapper: Account, to: Account, u: Token)
    requires ExitPoolStep(env, l, swapper, to).Some?
    ensures Changed(l, ExitPoolStep(env, l, swapper, to).value, u, 0, 0)
  {
    var s := env.swappers[swapper];
    var l1 := Transfer(l, s.spent, BalancerVault, swapper, s.spentOut).value;
    var l2 := Transfer(l1, s.received, BalancerVault, swapper, s.receivedOut).value;
    var l3 := TransferAll(l2, s.spent, swapper, to);
    TransferChangesNothing(l, s.spent, BalancerVault, swapper, s.spentOut, u);
    TransferChangesNothing(l1, s.received, BalancerVault, swapper, s.receivedOut, u);
    TransferChangesNothing(l2, s.spent, swapper, to, Balance(l2, s.spent, swapper), u);
    TransferChangesNothing(l3, s.received, swapper, to, Balance(l3, s.received, swapper), u);
  }

  lemma UnwrapChanges(l: Ledger, deposit: Account, to: Account, amount: nat, u: Token)
    requires UnwrapStep(l, deposit, to, amount).Some?
    ensures Changed(l, UnwrapStep(l, deposit, to, amount).value, u, 0, if u == Weth then amount else 0)
  {
    var l1 := Transfer(l, Weth, deposit, RatioController, amount).value;
    var l2 := WithdrawWeth(l1, RatioController, amount).value;
    TransferChangesNothing(l, Weth, deposit, RatioController, amount, u);
    WithdrawWethChanges(l1, RatioController, amount, u);
    TransferChangesNothing(l2, Eth, RatioController, to, amount, u);
  }

  lemma LidoChanges(env: Env, l: Ledger, u: Token)
    requires LidoStep(env, l).Some?
    ensures Changed(l, LidoStep(env, l).value, u, Minted(env, l, DepositToLido, u), 0)
  {
    var amount := Balance(l, Eth, EthLidoDeposit);
    if Swaps(env, amount) {
      TransferChangesNothing(l, Eth, EthLidoDeposit, StableSwap, amount, u);
      var l1 := Transfer(l, Eth, EthLidoDeposit, StableSwap, amount).value;
      TransferChangesNothing(l1, Steth, StableSwap, EthLidoDeposit, env.swapped(amount), u);
    } else {
      TransferChangesNothing(l, Eth, EthLidoDeposit, LidoContract, amount, u);
      MintChanges(Transfer(l, Eth, EthLidoDeposit, LidoContract, amount).value,
        EthLidoDeposit, env.submitted(amount), u);
    }
  }

  lemma ClawbackChangesNothing(env: Env, l: Ledger, lock: Account, u: Token)
    requires ClawbackStep(env, l, lock).Some?
    ensures Changed(l, ClawbackStep(env, l, lock).value, u, 0, 0)
  {
    var k := env.locks[lock];
    var vested := if k.passedCliff then k.available else 0;
    TransferChangesNothing(l, k.token, lock, k.beneficiary, vested, u);
    var released := Transfer(l, k.token, lock, k.beneficiary, vested).value;
    TransferChangesNothing(released, k.token, lock, k.admin, Balance(released, k.token, lock), u);
  }

  /** What a command burns of a token: WETH when it is unwrapped, FEI when it is burnt. */
  function Burned(l: Ledger, c: Command, t: Token): nat {
    match c
    case WithdrawRatioUnwrapWETH(deposit, _, basisPoints) =>
      if t == Weth && Ratio(Balance(l, Weth, deposit), basisPoints).Some?
      then Ratio(Balance(l, Weth, deposit), basisPoints).value else 0
    case BurnCommand(amount) => if t == Fei then amount else 0
    case _ => 0
  }

  /** What a command mints: stETH when ETH is staked with Lido directly. */
  function Minted(env: Env, l: Ledger, c: Command, t: Token): nat {
    var amount := Balance(l, Eth, EthLidoDeposit);
    if c == DepositToLido && t == Steth && !Swaps(env, amount) then env.submitted(amount) else 0
  }

  lemma StepChanges(env: Env, l: Ledger, c: Command, t: Token)
    requires Step(env, l, c).Some?
    ensures Changed(l, Step(env, l, c).value, t, Minted(env, l, c, t), Burned(l, c, t))
  {
    match c
    case ExitPool(swapper, to) => ExitPoolChangesNothing(env, l, swapper, to, t);
    case WithdrawRatioERC20(deposit, token, to, basisPoints) =>
      TransferChangesNothing(l, token, deposit, to, Ratio(Balance(l, token, deposit), basisPoints).value, t);
    case WithdrawRatioUnwrapWETH(deposit, to, basisPoints) =>
      UnwrapChanges(l, deposit, to, Ratio(Balance(l, Weth, deposit), basisPoints).value, t);
    case DepositToLido => LidoChanges(env, l, t);
    case TransferFromCommand(token, from, to, amount) =>
      TransferChangesNothing(l.(allowances := Spent(l, token, from, env.acting, amount).value), token,
        from, to, amount, t);
    case BurnCommand(amount) => BurnChanges(l, env.acting, amount, t);
    case TransferCommand(token, to, amount) => TransferChangesNothing(l, token, env.acting, to, amount, t);
    case ApproveCommand(token, spender, amount) =>
    case Clawback(lock) => ClawbackChangesNothing(env, l, lock, t);
  }

  function BurnedBy(env: Env, l: Ledger, cs: seq<Command>, t: Token): nat
    requires Run(env, l, cs).Some?
    decreases |cs|
  {
    if cs == [] then 0
    else Burned(l, cs[0], t) + BurnedBy(env, Step(env, l, cs[0]).value, cs[1..], t)
  }

  function MintedBy(env: Env, l: Ledger, cs: seq<Command>, t: Token): nat
    requires Run(env, l, cs).Some?
    decreases |cs|
  {
    if cs == [] then 0
    else Minted(env, l, cs[0], t) + MintedBy(env, Step(env, l, cs[0]).value, cs[1..], t)
  }

  /** Over any list of commands what a token had and was minted is what it has and was burned. */
  lemma {:induction false} RunConserves(env: Env, l: Ledger, cs: seq<Command>, t: Token)
    requires Run(env, l, cs).Some?
    ensures Changed(l, Run(env, l, cs).value, t, MintedBy(env, l, cs, t), BurnedBy(env, l, cs, t))
    ensures t != Weth ==> (Backed(Run(env, l, cs).value, t) <==> Backed(l, t))
    decreases |cs|
  {
    if cs != [] {
      StepChanges(env, l, cs[0], t);
      RunConserves(env, Step(env, l, cs[0]).value, cs[1..], t);
    }
  }

  // ---------- Untouched accounts ----------

  /** The accounts a command names or pays. */
  function Parties(env: Env, c: Command): set<Account> {
    match c
    case ExitPool(swapper, to) => {BalancerVault, swapper, to}
    case WithdrawRatioERC20(deposit, _, to, _) => {deposit, to}
    case WithdrawRatioUnwrapWETH(deposit, to, _) => {deposit, RatioController, to}
    case DepositToLido => {EthLidoDeposit, StableSwap, LidoContract}
    case TransferFromCommand(_, from, to, _) => {from, to}
    case BurnCommand(_) => {env.acting}
    case TransferCommand(_, to, _) => {env.acting, to}
    case ApproveCommand(_, _, _) => {}
    case Clawback(lock) => if lock in env.locks then {lock, env.locks[lock].beneficiary, env.locks[lock].admin} else {}
  }

  function Touched(env: Env, c: Command): set<Account> {
    Parties(env, c) + if c.WithdrawRatioUnwrapWETH? then {WethContract} else {}
  }

  lemma TransferKeepsOthers(l: Ledger, t: Token, from: Account, to: Account, amount: nat, u: Token, a: Account)
    requires Transfer(l, t, from, to, amount).Some? && a != from && a != to
    ensures Balance(Transfer(l, t, from, to, amount).value, u, a) == Balance(l, u, a)
  {
  }

  lemma ExitPoolKeepsOthers(env: Env, l: Ledger, swapper: Account, to: Account, u: Token, a: Account)
    requires ExitPoolStep(env, l, swapper, to).Some? && a !in {BalancerVault, swapper, to}
    ensures Balance(ExitPoolStep(env, l, swapper, to).value, u, a) == Balance(l, u, a)
  {
    var s := env.swappers[swapper];
    var l1 := Transfer(l, s.spent, BalancerVault, swapper, s.spentOut).value;
    var l2 := Transfer(l1, s.received, BalancerVault, swapper, s.receivedOut).value;
    var l3 := TransferAll(l2, s.spent, swapper, to);
    TransferKeepsOthers(l, s.spent, BalancerVault, swapper, s.spentOut, u, a);
    TransferKeepsOthers(l1, s.received, BalancerVault, swapper, s.receivedOut, u, a);
    TransferKeepsOthers(l2, s.spent, swapper, to, Balance(l2, s.spent, swapper), u, a);
    TransferKeepsOthers(l3, s.received, swapper, to, Balance(l3, s.received, swapper), u, a);
  }

  lemma DebitKeepsOthers(l: Ledger, t: Token, holder: Account, amount: nat, u: Token, a: Account)
    requires amount <= Balance(l, t, holder) && a != holder
    ensures Balance(Debited(l, t, holder, amount), u, a) == Balance(l, u, a)
  {
  }

  lemma WithdrawWethKeepsOthers(l: Ledger, holder: Account, amount: nat, u: Token, a: Account)
    requires WithdrawWeth(l, holder, amount).Some? && a !in {holder, WethContract}
    ensures Balance(WithdrawWeth(l, holder, amount).value, u, a) == Balance(l, u, a)
  {
    DebitKeepsOthers(l, Weth, holder, amount, u, a);
    TransferKeepsOthers(Debited(l, Weth, holder, amount), Eth, WethContract, holder, amount, u, a);
  }

  lemma UnwrapKeepsOthers(l: Ledger, deposit: Account, to: Account, amount: nat, u: Token, a: Account)
    requires UnwrapStep(l, deposit, to, amount).Some? && a !in {deposit, RatioController, to, WethContract}
    ensures Balance(UnwrapStep(l, deposit, to, amount).value, u, a) == Balance(l, u, a)
  {
    var l1 := Transfer(l, Weth, deposit, RatioController, amount).value;
    var l2 := WithdrawWeth(l1, RatioController, amount).value;
    TransferKeepsOthers(l, Weth, deposit, RatioController, amount, u, a);
    WithdrawWethKeepsOthers(l1, RatioController, amount, u, a);
    TransferKeepsOthers(l2, Eth, RatioController, to, amount, u, a);
  }

  lemma ClawbackKeepsOthers(env: Env, l: Ledger, lock: Account, u: Token, a: Account)
    requires ClawbackStep(env, l, lock).Some? && a !in {lock, env.locks[lock].beneficiary, env.locks[lock].admin}
    ensures Balance(ClawbackStep(env, l, lock).value, u, a) == Balance(l, u, a)
  {
    var k := env.locks[lock];
    var vested := if k.passedCliff then k.available else 0;
    TransferKeepsOthers(l, k.token, lock, k.beneficiary, vested, u, a);
    var released := Transfer(l, k.token, lock, k.beneficiary, vested).value;
    TransferKeepsOthers(released, k.token, lock, k.admin, Balance(released, k.token, lock), u, a);
  }

  lemma StepKeepsOthers(env: Env, l: Ledger, c: Command, t: Token, a: Account)
    requires Step(env, l, c).Some? && a !in Touched(env, c)
    ensures Balance(Step(env, l, c).value, t, a) == Balance(l, t, a)
  {
    match c
    case ExitPool(swapper, to) => ExitPoolKeepsOthers(env, l, swapper, to, t, a);
    case WithdrawRatioERC20(deposit, token, to, basisPoints) =>
      TransferKeepsOthers(l, token, deposit, to, Ratio(Balance(l, token, deposit), basisPoints).value, t, a);
    case WithdrawRatioUnwrapWETH(deposit, to, basisPoints) =>
      UnwrapKeepsOthers(l, deposit, to, Ratio(Balance(l, Weth, deposit), basisPoints).value, t, a);
    case DepositToLido =>
    case TransferFromCommand(token, from, to, amount) =>
    case BurnCommand(amount) =>
    case TransferCommand(token, to, amount) => TransferKeepsOthers(l, token, env.acting, to, amount, t, a);
    case ApproveCommand(token, spender, amount) =>
    case Clawback(lock) => ClawbackKeepsOthers(env, l, lock, t, a);
  }

  /** An account no command names keeps all its balances. */
  lemma {:induction false} RunKeepsOthers(env: Env, l: Ledger, cs: seq<Command>, t: Token, a: Account)
    requires Run(env, l, cs).Some? && forall c | c in cs :: a !in Touched(env, c)
    ensures Balance(Run(env, l, cs).value, t, a) == Balance(l, t, a)
    decreases |cs|
  {
    if cs != [] {
      StepKeepsOthers(env, l, cs[0], t, a);
      RunKeepsOthers(env, Step(env, l, cs[0]).value, cs[1..], t, a);
    }
  }

  // ---------- WETH ----------

  lemma WethStep(env: Env, l: Ledger, c: Command)
    requires Step(env, l, c).Some? && WethContract !in Parties(env, c)
    ensures Supply(Step(env, l, c).value, Weth) + Burned(l, c, Weth) == Supply(l, Weth)
  {
    if !c.WithdrawRatioUnwrapWETH? {
      StepKeepsOthers(env, l, c, Eth, WethContract);
    }
  }

  /** As long as no command names the WETH contract, its ETH falls with the WETH, so WETH stays backed. */
  lemma {:induction false} WethStaysBacked(env: Env, l: Ledger, cs: seq<Command>)
    requires Run(env, l, cs).Some? && forall c | c in cs :: WethContract !in Parties(env, c)
    ensures Supply(Run(env, l, cs).value, Weth) + BurnedBy(env, l, cs, Weth) == Supply(l, Weth)
    ensures Backed(Run(env, l, cs).value, Weth) <==> Backed(l, Weth)
    decreases |cs|
  {
    if cs != [] {
      WethStep(env, l, cs[0]);
      StepChanges(env, l, cs[0], Weth);
      WethStaysBacked(env, Step(env, l, cs[0]).value, cs[1..]);
    }
  }

  /** A withdrawal of all ten thousand basis points, when it goes through, leaves nothing behind. */
  lemma FullWithdrawalEmpties(env: Env, l: Ledger, deposit: Account, token: Token, to: Account)
    requires deposit != to
    ensures var r := Step(env, l, WithdrawRatioERC20(deposit, token, to, BASIS_POINTS));
            && (r.Some? <==> Balance(l, token, deposit) > 0)
            && (r.Some? ==>
                  && Balance(r.value, token, deposit) == 0
                  && Balance(r.value, token, to) == Balance(l, token, to) + Balance(l, token, deposit))
  {
    assert Balance(l, token, deposit) * BASIS_POINTS / BASIS_POINTS == Balance(l, token, deposit);
  }
}
