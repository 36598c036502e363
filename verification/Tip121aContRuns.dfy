/**
 When running the tip_121a_cont proposal satisfies its own validate: exactly when the state it
 starts from meets the conditions of Ready, each of which a proposer can read off beforehand.
 */
module Tip121aContRuns {
  import opened Bytes
  import opened Ledger
  import opened LedgerLaws
  import opened LedgerRuns
  import Tc = TcConsolidate
  import opened Tip121aCont

  // ---------- Runs in parts ----------

  lemma {:induction false} ActAllConcat(s: Surroundings, x: Chain, a: seq<Action>, b: seq<Action>)
    ensures ActAll(s, x, a + b) == (match ActAll(s, x, a) case None => None case Some(y) => ActAll(s, y, b))
    decreases |a|
  {
    if a == [] {
      assert a + b == b;
    } else {
      assert (a + b)[0] == a[0] && (a + b)[1..] == a[1..] + b;
      match Act(s, x, a[0])
      case None =>
      case Some(next) => ActAllConcat(s, next, a[1..], b);
    }
  }

  /** Ledger commands act on the ledger alone. */
  lemma {:induction false} LedgerActionsRun(s: Surroundings, x: Chain, cs: seq<Command>)
    ensures ActAll(s, x, LedgerActions(cs))
         == (match Run(s.env, x.ledger, cs) case None => None case Some(l) => Some(x.(ledger := l)))
    decreases |cs|
  {
    if cs != [] {
      assert LedgerActions(cs)[0] == OnLedger(cs[0]);
      assert LedgerActions(cs)[1..] == LedgerActions(cs[1..]);
      match Step(s.env, x.ledger, cs[0])
      case None =>
      case Some(l) => LedgerActionsRun(s, x.(ledger := l), cs[1..]);
    }
  }

  // ---------- Emptying a swapper ----------

  /** Exit a swapper's pool to the DAI holding deposit, and send the sold token on from there. */
  function Sweep(swapper: Account, sold: Token, holding: Account): seq<Command> {
    [ExitPool(swapper, DaiHolding), WithdrawRatioERC20(DaiHolding, sold, holding, BASIS_POINTS)]
  }

  ghost predicate SellsForDai(env: Env, swapper: Account, sold: Token) {
    swapper in env.swappers && env.swappers[swapper].spent == sold && env.swappers[swapper].received == Dai
  }

  /** All of the sold token that a sweep moves. */
  function Swept(env: Env, l: Ledger, swapper: Account, sold: Token): nat
    requires swapper in env.swappers
  {
    Balance(l, sold, DaiHolding) + Balance(l, sold, swapper) + env.swappers[swapper].spentOut
  }

  ghost predicate Apart(swapper: Account, sold: Token) {
    sold != Dai && swapper != BalancerVault && swapper != DaiHolding
  }

  /** The vault covers the payout, and there is something to send on. */
  ghost predicate CanSweep(env: Env, l: Ledger, swapper: Account, sold: Token)
    requires swapper in env.swappers
  {
    && env.swappers[swapper].spentOut <= Balance(l, sold, BalancerVault)
    && env.swappers[swapper].receivedOut <= Balance(l, Dai, BalancerVault)
    && Swept(env, l, swapper, sold) > 0
  }

  ghost predicate SweptTo(env: Env, l: Ledger, r: Ledger, swapper: Account, sold: Token, holding: Account)
    requires swapper in env.swappers
  {
    var s := env.swappers[swapper];
    && Balance(r, sold, swapper) == 0
    && Balance(r, Dai, swapper) == 0
    && Balance(r, sold, DaiHolding) == 0
    && Balance(r, sold, holding) == Balance(l, sold, holding) + Swept(env, l, swapper, sold)
    && Balance(r, Dai, DaiHolding) == Balance(l, Dai, DaiHolding) + Balance(l, Dai, swapper) + s.receivedOut
    && Balance(r, Dai, BalancerVault) == Balance(l, Dai, BalancerVault) - s.receivedOut
    && Balance(r, sold, BalancerVault) == Balance(l, sold, BalancerVault) - s.spentOut
    && Same(l, r, {sold, Dai}, {swapper, DaiHolding, holding, BalancerVault})
  }

  /** The vault pays both tokens to the swapper. */
  function PaidOut(env: Env, l: Ledger, swapper: Account): Option<Ledger>
    requires swapper in env.swappers
  {
    var s := env.swappers[swapper];
    match Transfer(l, s.spent, BalancerVault, swapper, s.spentOut)
    case None => None
    case Some(first) => Transfer(first, s.received, BalancerVault, swapper, s.receivedOut)
  }

  ghost predicate PaidOutTo(s: Swapper, l: Ledger, r: Ledger, swapper: Account) {
    && Balance(r, s.spent, swapper) == Balance(l, s.spent, swapper) + s.spentOut
    && Balance(r, s.received, swapper) == Balance(l, s.received, swapper) + s.receivedOut
    && Balance(r, s.received, BalancerVault) == Balance(l, s.received, BalancerVault) - s.receivedOut
    && Balance(r, s.spent, BalancerVault) == Balance(l, s.spent, BalancerVault) - s.spentOut
    && Same(l, r, {s.spent, s.received}, {swapper, BalancerVault})
  }

  lemma PaidOutParts(s: Swapper, l: Ledger, m: Ledger, r: Ledger, swapper: Account)
    requires s.spent != s.received && swapper != BalancerVault
    requires PaidTo(l, m, s.spent, BalancerVault, swapper, s.spentOut)
    requires PaidTo(m, r, s.received, BalancerVault, swapper, s.receivedOut)
    ensures PaidOutTo(s, l, r, swapper)
  {
  }

  lemma PaidOutEffect(env: Env, l: Ledger, swapper: Account, sold: Token)
    requires SellsForDai(env, swapper, sold) && Apart(swapper, sold)
    ensures var s := env.swappers[swapper]; var r := PaidOut(env, l, swapper);
            && (r.Some? <==>
                  s.spentOut <= Balance(l, sold, BalancerVault) && s.receivedOut <= Balance(l, Dai, BalancerVault))
            && (r.Some? ==> PaidOutTo(s, l, r.value, swapper))
  {
    var s := env.swappers[swapper];
    TransferEffect(l, sold, BalancerVault, swapper, s.spentOut);
    var first := Transfer(l, sold, BalancerVault, swapper, s.spentOut);
    if first.Some? {
      TransferEffect(first.value, Dai, BalancerVault, swapper, s.receivedOut);
      assert Balance(first.value, Dai, BalancerVault) == Balance(l, Dai, BalancerVault);
      var second := Transfer(first.value, Dai, BalancerVault, swapper, s.receivedOut);
      if second.Some? {
        PaidOutParts(s, l, first.value, second.value, swapper);
      }
    }
  }

  /** The swapper hands all it has of both tokens on to the DAI holding deposit. */
  function HandedOn(s: Swapper, l: Ledger, swapper: Account): Ledger {
    TransferAll(TransferAll(l, s.spent, swapper, DaiHolding), s.received, swapper, DaiHolding)
  }

  ghost predicate HandedOnTo(s: Swapper, l: Ledger, r: Ledger, swapper: Account) {
    && Balance(r, s.spent, swapper) == 0
    && Balance(r, s.received, swapper) == 0
    && Balance(r, s.spent, DaiHolding) == Balance(l, s.spent, DaiHolding) + Balance(l, s.spent, swapper)
    && Balance(r, s.received, DaiHolding) == Balance(l, s.received, DaiHolding) + Balance(l, s.received, swapper)
    && Same(l, r, {s.spent, s.received}, {swapper, DaiHolding})
  }

  lemma HandOnEffect(s: Swapper, l: Ledger, swapper: Account)
    requires s.spent != s.received && swapper != DaiHolding
    ensures HandedOnTo(s, l, HandedOn(s, l, swapper), swapper)
  {
    TransferEffect(l, s.spent, swapper, DaiHolding, Balance(l, s.spent, swapper));
    var first := TransferAll(l, s.spent, swapper, DaiHolding);
    TransferEffect(first, s.received, swapper, DaiHolding, Balance(first, s.received, swapper));
  }

  ghost predicate ExitedTo(s: Swapper, l: Ledger, r: Ledger, swapper: Account) {
    && Balance(r, s.spent, swapper) == 0
    && Balance(r, s.received, swapper) == 0
    && Balance(r, s.spent, DaiHolding) == Balance(l, s.spent, DaiHolding) + Balance(l, s.spent, swapper) + s.spentOut
    && Balance(r, s.received, DaiHolding) ==
       Balance(l, s.received, DaiHolding) + Balance(l, s.received, swapper) + s.receivedOut
    && Balance(r, s.received, BalancerVault) == Balance(l, s.received, BalancerVault) - s.receivedOut
    && Balance(r, s.spent, BalancerVault) == Balance(l, s.spent, BalancerVault) - s.spentOut
    && Same(l, r, {s.spent, s.received}, {swapper, DaiHolding, BalancerVault})
  }

  lemma ExitParts(s: Swapper, l: Ledger, paid: Ledger, r: Ledger, swapper: Account)
    requires PaidOutTo(s, l, paid, swapper) && HandedOnTo(s, paid, r, swapper)
    requires swapper != DaiHolding && swapper != BalancerVault
    ensures ExitedTo(s, l, r, swapper)
  {
  }

  lemma ExitEffect(env: Env, l: Ledger, swapper: Account, sold: Token)
    requires SellsForDai(env, swapper, sold) && Apart(swapper, sold)
    ensures var s := env.swappers[swapper]; var r := ExitPoolStep(env, l, swapper, DaiHolding);
            && (r.Some? <==>
                  s.spentOut <= Balance(l, sold, BalancerVault) && s.receivedOut <= Balance(l, Dai, BalancerVault))
            && (r.Some? ==> ExitedTo(s, l, r.value, swapper))
  {
    var s := env.swappers[swapper];
    PaidOutEffect(env, l, swapper, sold);
    var paid := PaidOut(env, l, swapper);
    if paid.Some? {
      HandOnEffect(s, paid.value, swapper);
      ExitParts(s, l, paid.value, HandedOn(s, paid.value, swapper), swapper);
    }
  }

  ghost predicate WithdrawnTo(l: Ledger, r: Ledger, token: Token, holding: Account) {
    && Balance(r, token, DaiHolding) == 0
    && Balance(r, token, holding) == Balance(l, token, holding) + Balance(l, token, DaiHolding)
    && Same(l, r, {token}, {DaiHolding, holding})
  }

  lemma SweepParts(env: Env, l: Ledger, exited: Ledger, r: Ledger, swapper: Account, sold: Token, holding: Account)
    requires SellsForDai(env, swapper, sold) && Apart(swapper, sold)
    requires holding !in {swapper, BalancerVault, DaiHolding}
    requires ExitedTo(env.swappers[swapper], l, exited, swapper) && WithdrawnTo(exited, r, sold, holding)
    ensures SweptTo(env, l, r, swapper, sold, holding)
  {
  }

  lemma WithdrawEffect(env: Env, l: Ledger, token: Token, holding: Account)
    requires holding != DaiHolding
    ensures var r := Step(env, l, WithdrawRatioERC20(DaiHolding, token, holding, BASIS_POINTS));
            && (r.Some? <==> Balance(l, token, DaiHolding) > 0)
            && (r.Some? ==> WithdrawnTo(l, r.value, token, holding))
  {
    FullWithdrawalEmpties(env, l, DaiHolding, token, holding);
  }

  /** A sweep goes through exactly when the payout is covered and non-empty, and then empties the swapper. */
  lemma SweepEffect(env: Env, l: Ledger, swapper: Account, sold: Token, holding: Account)
    requires SellsForDai(env, swapper, sold) && Apart(swapper, sold)
    requires holding !in {swapper, BalancerVault, DaiHolding}
    ensures var r := Run(env, l, Sweep(swapper, sold, holding));
            && (r.Some? <==> CanSweep(env, l, swapper, sold))
            && (r.Some? ==> SweptTo(env, l, r.value, swapper, sold, holding))
  {
    RunTwo(env, l, ExitPool(swapper, DaiHolding), WithdrawRatioERC20(DaiHolding, sold, holding, BASIS_POINTS));
    ExitEffect(env, l, swapper, sold);
    var exited := ExitPoolStep(env, l, swapper, DaiHolding);
    if exited.Some? {
      WithdrawEffect(env, exited.value, sold, holding);
      var withdrawn := Step(env, exited.value, WithdrawRatioERC20(DaiHolding, sold, holding, BASIS_POINTS));
      if withdrawn.Some? {
        SweepParts(env, l, exited.value, withdrawn.value, swapper, sold, holding);
      }
    }
  }

  // ---------- Staking the WETH ----------

  const STAKE: seq<Command> := [WithdrawRatioUnwrapWETH(WethHolding, EthLidoDeposit, BASIS_POINTS), DepositToLido]

  /** The ETH that is staked when the holding deposit's WETH is unwrapped into the Lido deposit. */
  function Staked(l: Ledger): nat {
    Balance(l, Eth, EthLidoDeposit) + Balance(l, Weth, WethHolding)
  }

  /**
   Staking an amount brings stETH within the slippage; a swap also needs the pool to have it and not
   to pay less than was put in, which direct staking does not.
   */
  ghost predicate Stakes(env: Env, amount: nat, pool: nat) {
    && env.maximumSlippage <= BASIS_POINTS
    && amount * (BASIS_POINTS - env.maximumSlippage) / BASIS_POINTS <= Received(env, amount)
    && (env.quoted(amount) > amount ==> amount <= env.swapped(amount) <= pool)
  }

  ghost predicate CanStake(env: Env, l: Ledger) {
    && 0 < Balance(l, Weth, WethHolding) <= Balance(l, Eth, WethContract)
    && Stakes(env, Staked(l), Balance(l, Steth, StableSwap))
  }

  /** Staking leaves every token but WETH, ETH and stETH alone, and empties the WETH holding and the staked ETH. */
  ghost predicate StakedTo(env: Env, l: Ledger, r: Ledger) {
    && Balance(r, Weth, WethHolding) == 0 && Balance(r, Weth, RatioController) == Balance(l, Weth, RatioController)
    && Balance(r, Eth, EthLidoDeposit) == 0 && Balance(r, Eth, RatioController) == Balance(l, Eth, RatioController)
    && Balance(r, Eth, WethContract) == Balance(l, Eth, WethContract) - Balance(l, Weth, WethHolding)
    && Balance(r, Steth, EthLidoDeposit) == Balance(l, Steth, EthLidoDeposit) + Received(env, Staked(l))
    && (forall t: Token, a: Account :: t !in {Weth, Eth, Steth} ==> Balance(r, t, a) == Balance(l, t, a))
    && (forall a: Account :: a !in {WethHolding, RatioController} ==> Balance(r, Weth, a) == Balance(l, Weth, a))
    && (forall t: Token :: t !in {Weth, Steth} ==> Supply(r, t) == Supply(l, t))
    && r.allowances == l.allowances
  }

  lemma UnwrapEffect(l: Ledger, amount: nat)
    requires amount == Balance(l, Weth, WethHolding)
    ensures var r := UnwrapStep(l, WethHolding, EthLidoDeposit, amount);
            && (r.Some? <==> amount <= Balance(l, Eth, WethContract))
            && (r.Some? ==> UnwrappedTo(l, r.value))
  {
  }

  lemma SwapEffect(env: Env, l: Ledger)
    ensures var amount := Balance(l, Eth, EthLidoDeposit); var r := SwapStep(env, l, amount);
            && (r.Some? <==> amount <= env.swapped(amount) <= Balance(l, Steth, StableSwap))
            && (r.Some? ==>
                  && Balance(r.value, Eth, EthLidoDeposit) == 0
                  && Balance(r.value, Eth, StableSwap) == Balance(l, Eth, StableSwap) + amount
                  && Balance(r.value, Steth, StableSwap) == Balance(l, Steth, StableSwap) - env.swapped(amount)
                  && Balance(r.value, Steth, EthLidoDeposit) == Balance(l, Steth, EthLidoDeposit) + env.swapped(amount)
                  && Same(l, r.value, {Eth, Steth}, {EthLidoDeposit, StableSwap}))
  {
    var amount := Balance(l, Eth, EthLidoDeposit);
    TransferEffect(l, Eth, EthLidoDeposit, StableSwap, amount);
    TransferEffect(Transfer(l, Eth, EthLidoDeposit, StableSwap, amount).value, Steth, StableSwap, EthLidoDeposit,
      env.swapped(amount));
  }

  lemma SubmitEffect(env: Env, l: Ledger)
    ensures var amount := Balance(l, Eth, EthLidoDeposit); var r := SubmitStep(env, l, amount);
            && r.Some?
            && Balance(r.value, Eth, EthLidoDeposit) == 0
            && Balance(r.value, Eth, LidoContract) == Balance(l, Eth, LidoContract) + amount
            && Supply(r.value, Steth) == Supply(l, Steth) + env.submitted(amount)
            && Balance(r.value, Steth, EthLidoDeposit) == Balance(l, Steth, EthLidoDeposit) + env.submitted(amount)
            && Same(l.(supplies := r.value.supplies), r.value, {Eth, Steth}, {EthLidoDeposit, LidoContract})
            && (forall t: Token :: t !in {Weth, Steth} ==> Supply(r.value, t) == Supply(l, t))
  {
    TransferEffect(l, Eth, EthLidoDeposit, LidoContract, Balance(l, Eth, EthLidoDeposit));
  }

  lemma LidoEffect(env: Env, l: Ledger)
    ensures var amount := Balance(l, Eth, EthLidoDeposit); var r := LidoStep(env, l);
            && (r.Some? <==> amount > 0 && Stakes(env, amount, Balance(l, Steth, StableSwap)))
            && (r.Some? ==> DepositedTo(env, l, r.value))
  {
    SwapEffect(env, l);
    SubmitEffect(env, l);
  }

  ghost predicate UnwrappedTo(l: Ledger, r: Ledger) {
    && Balance(r, Eth, EthLidoDeposit) == Staked(l)
    && Balance(r, Weth, WethHolding) == 0 && Balance(r, Weth, RatioController) == Balance(l, Weth, RatioController)
    && Balance(r, Eth, RatioController) == Balance(l, Eth, RatioController)
    && Balance(r, Eth, WethContract) == Balance(l, Eth, WethContract) - Balance(l, Weth, WethHolding)
    && (forall a: Account :: a !in {WethHolding, RatioController} ==> Balance(r, Weth, a) == Balance(l, Weth, a))
    && (forall t: Token, a: Account :: t !in {Weth, Eth} ==> Balance(r, t, a) == Balance(l, t, a))
    && r.supplies == l.supplies && r.allowances == l.allowances
  }

  /** The ETH goes to the stable swap when that quotes more than it gets, and else to Lido, which mints stETH. */
  ghost predicate DepositedTo(env: Env, l: Ledger, r: Ledger) {
    var amount := Balance(l, Eth, EthLidoDeposit);
    && Balance(r, Eth, EthLidoDeposit) == 0
    && (env.quoted(amount) > amount ==>
          && Balance(r, Steth, EthLidoDeposit) == Balance(l, Steth, EthLidoDeposit) + env.swapped(amount)
          && Balance(r, Eth, StableSwap) == Balance(l, Eth, StableSwap) + amount
          && Balance(r, Steth, StableSwap) == Balance(l, Steth, StableSwap) - env.swapped(amount))
    && (env.quoted(amount) <= amount ==>
          && Balance(r, Steth, EthLidoDeposit) == Balance(l, Steth, EthLidoDeposit) + env.submitted(amount)
          && Balance(r, Eth, LidoContract) == Balance(l, Eth, LidoContract) + amount
          && Supply(r, Steth) == Supply(l, Steth) + env.submitted(amount))
    && Same(l.(supplies := r.supplies), r, {Eth, Steth}, {EthLidoDeposit, StableSwap, LidoContract})
    && (forall t: Token :: t !in {Weth, Steth} ==> Supply(r, t) == Supply(l, t))
  }

  lemma StakeParts(env: Env, l: Ledger, unwrapped: Ledger, r: Ledger)
    requires UnwrappedTo(l, unwrapped) && DepositedTo(env, unwrapped, r)
    ensures StakedTo(env, l, r)
  {
  }

  lemma StakeEffect(env: Env, l: Ledger)
    ensures var r := Run(env, l, STAKE);
            && (r.Some? <==> CanStake(env, l))
            && (r.Some? ==> StakedTo(env, l, r.value))
  {
    var amount := Balance(l, Weth, WethHolding);
    assert amount * BASIS_POINTS / BASIS_POINTS == amount;
    RunTwo(env, l, STAKE[0], STAKE[1]);
    UnwrapEffect(l, amount);
    var unwrapped := UnwrapStep(l, WethHolding, EthLidoDeposit, amount);
    if unwrapped.Some? {
      LidoEffect(env, unwrapped.value);
      var deposited := LidoStep(env, unwrapped.value);
      if deposited.Some? {
        StakeParts(env, l, unwrapped.value, deposited.value);
      }
    }
  }

  // ---------- The clawback ----------

  /** The DAO timelock may take the amount: enough is left of the approval, or it is never used up. */
  predicate Approved(l: Ledger, t: Token, amount: nat) {
    !Spends(l, t, TribalCouncilTimelock, FeiDAOTimelock) ||
       amount <= Allowance(l, t, TribalCouncilTimelock, FeiDAOTimelock)
  }

  ghost predicate CanClawBack(l: Ledger) {
    && TC_TRIBE_BALANCE <= Balance(l, Tribe, TribalCouncilTimelock)
    && TC_FEI_BALANCE <= Balance(l, Fei, TribalCouncilTimelock)
    && Approved(l, Tribe, TC_TRIBE_BALANCE)
    && Approved(l, Fei, TC_FEI_BALANCE)
    && TC_FEI_BALANCE <= Supply(l, Fei)
  }

  ghost predicate ClawedBackTo(l: Ledger, r: Ledger) {
    && Balance(r, Tribe, Core) == Balance(l, Tribe, Core) + TC_TRIBE_BALANCE
    && Balance(r, Tribe, TribalCouncilTimelock) == Balance(l, Tribe, TribalCouncilTimelock) - TC_TRIBE_BALANCE
    && Balance(r, Fei, TribalCouncilTimelock) == Balance(l, Fei, TribalCouncilTimelock) - TC_FEI_BALANCE
    && Balance(r, Fei, FeiDAOTimelock) == Balance(l, Fei, FeiDAOTimelock)
    && Supply(r, Fei) == Supply(l, Fei) - TC_FEI_BALANCE
    && (forall t: Token, a: Account :: t !in {Fei, Tribe} ==> Balance(r, t, a) == Balance(l, t, a))
  }

  /** Taking moves the balances as a plain transfer would, and leaves other tokens' approvals alone. */
  lemma TakeEffect(l: Ledger, t: Token, to: Account, amount: nat, u: Token)
    requires to != TribalCouncilTimelock && amount <= UINT96_MAX
    ensures var r := TransferFrom(l, t, FeiDAOTimelock, TribalCouncilTimelock, to, amount);
            var plain := Transfer(l, t, TribalCouncilTimelock, to, amount);
            && (r.Some? <==> Approved(l, t, amount) && plain.Some?)
            && (r.Some? ==>
                  && r.value == plain.value.(allowances := r.value.allowances)
                  && (u != t ==>
                        Allowance(r.value, u, TribalCouncilTimelock, FeiDAOTimelock) ==
                        Allowance(l, u, TribalCouncilTimelock, FeiDAOTimelock)))
  {
    SpentEffect(l, t, amount, u);
    var left := Spent(l, t, TribalCouncilTimelock, FeiDAOTimelock, amount);
    if left.Some? {
      PaidSame(l, left.value, t, TribalCouncilTimelock, to, amount);
    }
  }

  lemma SpentEffect(l: Ledger, t: Token, amount: nat, u: Token)
    ensures var left := Spent(l, t, TribalCouncilTimelock, FeiDAOTimelock, amount);
            && (left.Some? <==> Approved(l, t, amount))
            && (left.Some? && u != t ==>
                  Allowance(l.(allowances := left.value), u, TribalCouncilTimelock, FeiDAOTimelock) ==
                  Allowance(l, u, TribalCouncilTimelock, FeiDAOTimelock))
  {
  }

  /** A transfer does not look at the approvals. */
  lemma PaidSame(
    l: Ledger, allowances: map<(Token, Account, Account), nat>, t: Token, from: Account, to: Account, amount: nat)
    ensures Transfer(l.(allowances := allowances), t, from, to, amount) ==
            (match Transfer(l, t, from, to, amount)
               case None => None
               case Some(r) => Some(r.(allowances := allowances)))
  {
  }

  /** FEI that is taken and burnt leaves the DAO timelock's own FEI as it was. */
  lemma TakeAndBurnEffect(env: Env, l: Ledger)
    requires env.acting == FeiDAOTimelock
    ensures var r := Run(env, l, [CLAWBACK[1], CLAWBACK[2]]);
            && (r.Some? <==>
                  && Approved(l, Fei, TC_FEI_BALANCE)
                  && TC_FEI_BALANCE <= Balance(l, Fei, TribalCouncilTimelock) && TC_FEI_BALANCE <= Supply(l, Fei))
            && (r.Some? ==>
                  && Balance(r.value, Fei, TribalCouncilTimelock) ==
                     Balance(l, Fei, TribalCouncilTimelock) - TC_FEI_BALANCE
                  && Balance(r.value, Fei, FeiDAOTimelock) == Balance(l, Fei, FeiDAOTimelock)
                  && Supply(r.value, Fei) == Supply(l, Fei) - TC_FEI_BALANCE
                  && (forall t: Token, a: Account :: t != Fei ==> Balance(r.value, t, a) == Balance(l, t, a)))
  {
    RunTwo(env, l, CLAWBACK[1], CLAWBACK[2]);
    TransferEffect(l, Fei, TribalCouncilTimelock, FeiDAOTimelock, TC_FEI_BALANCE);
    TakeEffect(l, Fei, FeiDAOTimelock, TC_FEI_BALANCE, Fei);
    var taken := TransferFrom(l, Fei, FeiDAOTimelock, TribalCouncilTimelock, FeiDAOTimelock, TC_FEI_BALANCE);
    if taken.Some? {
      BurnEffect(taken.value, FeiDAOTimelock, TC_FEI_BALANCE);
    }
  }

  lemma ClawbackEffect(env: Env, l: Ledger)
    requires env.acting == FeiDAOTimelock
    ensures var r := Run(env, l, CLAWBACK);
            && (r.Some? <==> CanClawBack(l))
            && (r.Some? ==> ClawedBackTo(l, r.value))
  {
    assert CLAWBACK == [CLAWBACK[0]] + [CLAWBACK[1], CLAWBACK[2]];
    RunConcat(env, l, [CLAWBACK[0]], [CLAWBACK[1], CLAWBACK[2]]);
    RunOne(env, l, CLAWBACK[0]);
    TransferEffect(l, Tribe, TribalCouncilTimelock, Core, TC_TRIBE_BALANCE);
    TakeEffect(l, Tribe, Core, TC_TRIBE_BALANCE, Fei);
    var taken := TransferFrom(l, Tribe, FeiDAOTimelock, TribalCouncilTimelock, Core, TC_TRIBE_BALANCE);
    if taken.Some? {
      TakeAndBurnEffect(env, taken.value);
    }
  }

  // ---------- Cleanup and clawback together ----------

  /** Who acts, and what the two swappers sell. */
  ghost predicate Stage(env: Env) {
    && env.acting == FeiDAOTimelock
    && SellsForDai(env, LusdToDaiSwapper, Lusd)
    && SellsForDai(env, EthToDaiSwapper, Weth)
  }

  function Payout(env: Env, swapper: Account): Swapper
    requires swapper in env.swappers
  {
    env.swappers[swapper]
  }

  /** The WETH that is unwrapped: all that either swapper's pool, or a holding deposit, still had. */
  function AllWeth(env: Env, l: Ledger): nat
    requires Stage(env)
  {
    Balance(l, Weth, WethHolding) + Swept(env, l, EthToDaiSwapper, Weth)
  }

  /** The ETH that reaches Lido. */
  function AllEth(env: Env, l: Ledger): nat
    requires Stage(env)
  {
    Balance(l, Eth, EthLidoDeposit) + AllWeth(env, l)
  }

  /** The WETH half of the cleanup goes through from here. */
  ghost predicate CanMoveWeth(env: Env, l: Ledger)
    requires Stage(env)
  {
    && CanSweep(env, l, EthToDaiSwapper, Weth)
    && AllWeth(env, l) <= Balance(l, Eth, WethContract)
    && Stakes(env, AllEth(env, l), Balance(l, Steth, StableSwap))
  }

  ghost predicate WethMovedTo(env: Env, l: Ledger, r: Ledger)
    requires Stage(env)
  {
    && Balance(r, Weth, EthToDaiSwapper) == Balance(r, Dai, EthToDaiSwapper) == 0
    && Balance(r, Weth, WethHolding) == Balance(r, Eth, EthLidoDeposit) == 0
    && Balance(r, Dai, DaiHolding) ==
       Balance(l, Dai, DaiHolding) + Balance(l, Dai, EthToDaiSwapper) + Payout(env, EthToDaiSwapper).receivedOut
    && Balance(r, Dai, LusdToDaiSwapper) == Balance(l, Dai, LusdToDaiSwapper)
    && Balance(r, Steth, EthLidoDeposit) == Balance(l, Steth, EthLidoDeposit) + Received(env, AllEth(env, l))
    && (forall t: Token, a: Account :: t in {Lusd, Fei, Tribe} ==> Balance(r, t, a) == Balance(l, t, a))
    && Supply(r, Fei) == Supply(l, Fei)
    && r.allowances == l.allowances
  }

  lemma WethParts(env: Env, l: Ledger, swept: Ledger)
    requires Stage(env) && CanSweep(env, l, EthToDaiSwapper, Weth)
             && SweptTo(env, l, swept, EthToDaiSwapper, Weth, WethHolding)
    ensures Staked(swept) == AllEth(env, l)
    ensures CanStake(env, swept) <==> CanMoveWeth(env, l)
  {
  }

  lemma WethWhole(env: Env, l: Ledger, swept: Ledger, r: Ledger)
    requires Stage(env) && SweptTo(env, l, swept, EthToDaiSwapper, Weth, WethHolding) && StakedTo(env, swept, r)
    requires Staked(swept) == AllEth(env, l)
    ensures WethMovedTo(env, l, r)
  {
  }

  lemma WethEffect(env: Env, l: Ledger)
    requires Stage(env)
    ensures var r := Run(env, l, Sweep(EthToDaiSwapper, Weth, WethHolding) + STAKE);
            && (r.Some? <==> CanMoveWeth(env, l))
            && (r.Some? ==> WethMovedTo(env, l, r.value))
  {
    var sweep := Sweep(EthToDaiSwapper, Weth, WethHolding);
    RunConcat(env, l, sweep, STAKE);
    SweepEffect(env, l, EthToDaiSwapper, Weth, WethHolding);
    var swept := Run(env, l, sweep);
    if swept.Some? {
      WethParts(env, l, swept.value);
      StakeEffect(env, swept.value);
      var staked := Run(env, swept.value, STAKE);
      if staked.Some? {
        WethWhole(env, l, swept.value, staked.value);
      }
    }
  }

  /** The whole cleanup goes through from here. */
  ghost predicate CanCleanUp(env: Env, l: Ledger)
    requires Stage(env)
  {
    && CanSweep(env, l, LusdToDaiSwapper, Lusd)
    && CanMoveWeth(env, l)
    && Payout(env, LusdToDaiSwapper).receivedOut + Payout(env, EthToDaiSwapper).receivedOut
       <= Balance(l, Dai, BalancerVault)
  }

  /** The DAI the two exits bring to the holding deposit. */
  function DaiOut(env: Env, l: Ledger): nat
    requires Stage(env)
  {
    Balance(l, Dai, LusdToDaiSwapper) + Payout(env, LusdToDaiSwapper).receivedOut
    + Balance(l, Dai, EthToDaiSwapper) + Payout(env, EthToDaiSwapper).receivedOut
  }

  ghost predicate CleanedUpTo(env: Env, l: Ledger, r: Ledger)
    requires Stage(env)
  {
    && Balance(r, Lusd, LusdToDaiSwapper) == Balance(r, Dai, LusdToDaiSwapper) == 0
    && Balance(r, Weth, EthToDaiSwapper) == Balance(r, Dai, EthToDaiSwapper) == 0
    && Balance(r, Weth, WethHolding) == Balance(r, Eth, EthLidoDeposit) == 0
    && Balance(r, Lusd, LusdHolding) == Balance(l, Lusd, LusdHolding) + Swept(env, l, LusdToDaiSwapper, Lusd)
    && Balance(r, Dai, DaiHolding) == Balance(l, Dai, DaiHolding) + DaiOut(env, l)
    && Balance(r, Steth, EthLidoDeposit) == Balance(l, Steth, EthLidoDeposit) + Received(env, AllEth(env, l))
    && (forall t: Token, a: Account :: t in {Fei, Tribe} ==> Balance(r, t, a) == Balance(l, t, a))
    && Supply(r, Fei) == Supply(l, Fei)
    && r.allowances == l.allowances
  }

  lemma CleanupParts(env: Env, l: Ledger, swept: Ledger)
    requires Stage(env) && CanSweep(env, l, LusdToDaiSwapper, Lusd)
             && SweptTo(env, l, swept, LusdToDaiSwapper, Lusd, LusdHolding)
    ensures AllEth(env, swept) == AllEth(env, l)
    ensures CanMoveWeth(env, swept) <==> CanCleanUp(env, l)
  {
  }

  lemma CleanupWhole(env: Env, l: Ledger, swept: Ledger, r: Ledger)
    requires Stage(env) && SweptTo(env, l, swept, LusdToDaiSwapper, Lusd, LusdHolding) && WethMovedTo(env, swept, r)
    requires AllEth(env, swept) == AllEth(env, l)
    ensures CleanedUpTo(env, l, r)
  {
  }

  lemma CleanupEffect(env: Env, l: Ledger)
    requires Stage(env)
    ensures var r := Run(env, l, CLEANUP);
            && (r.Some? <==> CanCleanUp(env, l))
            && (r.Some? ==> CleanedUpTo(env, l, r.value))
  {
    var lusd := Sweep(LusdToDaiSwapper, Lusd, LusdHolding);
    var weth := Sweep(EthToDaiSwapper, Weth, WethHolding) + STAKE;
    assert CLEANUP == lusd + weth;
    RunConcat(env, l, lusd, weth);
    SweepEffect(env, l, LusdToDaiSwapper, Lusd, LusdHolding);
    var swept := Run(env, l, lusd);
    if swept.Some? {
      CleanupParts(env, l, swept.value);
      WethEffect(env, swept.value);
      var moved := Run(env, swept.value, weth);
      if moved.Some? {
        CleanupWhole(env, l, swept.value, moved.value);
      }
    }
  }

  // ---------- Oracle and guardian maintenance ----------

  predicate Distinct(ds: seq<string>) {
    forall i, j :: 0 <= i < j < |ds| ==> ds[i] != ds[j]
  }

  /** Removing goes through exactly for distinct registered deposits, and removes just those. */
  lemma {:induction false} RemoveEachIff(deposits: map<string, string>, ds: seq<string>)
    ensures RemoveEach(deposits, ds).Some? <==> Distinct(ds) && forall i :: 0 <= i < |ds| ==> ds[i] in deposits
    ensures RemoveEach(deposits, ds).Some? ==> RemoveEach(deposits, ds).value == deposits - (set d | d in ds)
    decreases |ds|
  {
    if ds == [] {
      assert deposits == deposits - (set d | d in ds);
    } else if ds[0] in deposits {
      RemoveEachIff(deposits - {ds[0]}, ds[1..]);
      assert ds == [ds[0]] + ds[1..];
      if Distinct(ds) && forall i :: 0 <= i < |ds| ==> ds[i] in deposits {
        assert forall i :: 0 <= i < |ds[1..]| ==> ds[1..][i] == ds[i + 1] && ds[1..][i] in deposits - {ds[0]};
      }
      if RemoveEach(deposits - {ds[0]}, ds[1..]).Some? {
        assert forall i :: 1 <= i < |ds| ==> ds[i] == ds[1..][i - 1];
      }
    }
  }

  lemma {:induction false} UnsetEachIff(safe: set<string>, ds: seq<string>)
    ensures UnsetEach(safe, ds).Some? <==> Distinct(ds) && forall i :: 0 <= i < |ds| ==> ds[i] in safe
    ensures UnsetEach(safe, ds).Some? ==> UnsetEach(safe, ds).value == safe - (set d | d in ds)
    decreases |ds|
  {
    if ds == [] {
      assert safe == safe - (set d | d in ds);
    } else if ds[0] in safe {
      UnsetEachIff(safe - {ds[0]}, ds[1..]);
      assert ds == [ds[0]] + ds[1..];
      if Distinct(ds) && forall i :: 0 <= i < |ds| ==> ds[i] in safe {
        assert forall i :: 0 <= i < |ds[1..]| ==> ds[1..][i] == ds[i + 1] && ds[1..][i] in safe - {ds[0]};
      }
      if UnsetEach(safe - {ds[0]}, ds[1..]).Some? {
        assert forall i :: 1 <= i < |ds| ==> ds[i] == ds[1..][i - 1];
      }
    }
  }

  /** A deposit that may be added: new, with an asset that has an oracle. */
  predicate Addable(reportedIn: map<string, string>, oracles: map<string, string>, d: string) {
    d in reportedIn && reportedIn[d] in oracles
  }

  /** Adding goes through exactly for distinct new deposits whose assets have oracles. */
  lemma {:induction false} AddEachIff(
    reportedIn: map<string, string>, oracles: map<string, string>, deposits: map<string, string>, ds: seq<string>)
    ensures AddEach(reportedIn, oracles, deposits, ds).Some? <==>
              && Distinct(ds)
              && forall i :: 0 <= i < |ds| ==> ds[i] !in deposits && Addable(reportedIn, oracles, ds[i])
    decreases |ds|
  {
    if ds != [] && ds[0] !in deposits && Addable(reportedIn, oracles, ds[0]) {
      var rest := ds[1..];
      AddEachIff(reportedIn, oracles, deposits[ds[0] := reportedIn[ds[0]]], rest);
      assert forall i :: 0 < i < |ds| ==> ds[i] == rest[i - 1];
      assert Distinct(ds) <==> Distinct(rest) && forall i :: 0 <= i < |rest| ==> rest[i] != ds[0];
    }
  }

  /** And it adds just those, each with its asset. */
  lemma {:induction false} AddEachLeaves(
    reportedIn: map<string, string>, oracles: map<string, string>, deposits: map<string, string>, ds: seq<string>,
    d: string)
    requires AddEach(reportedIn, oracles, deposits, ds).Some?
    ensures var r := AddEach(reportedIn, oracles, deposits, ds).value;
            && (d in r <==> d in deposits || d in ds)
            && (d in ds ==> d in reportedIn && r[d] == reportedIn[d])
            && (d in deposits && d !in ds ==> r[d] == deposits[d])
    decreases |ds|
  {
    if ds != [] {
      var more, rest := deposits[ds[0] := reportedIn[ds[0]]], ds[1..];
      AddEachLeaves(reportedIn, oracles, more, rest, d);
      assert d in ds <==> d == ds[0] || d in rest;
      if d == ds[0] && d in rest {
        AddEachIff(reportedIn, oracles, more, rest);
      }
    }
  }

  /** Unsetting no address at all is refused; otherwise it goes through for distinct safe ones. */
  lemma UnsetActs(s: Surroundings, x: Chain, ds: seq<string>)
    ensures var r := Act(s, x, UnsetSafeAddresses(ds));
            && (r.Some? <==> ds != [] && Distinct(ds) && forall i :: 0 <= i < |ds| ==> ds[i] in x.safe)
            && (r.Some? ==> r.value == x.(safe := x.safe - (set d | d in ds)))
  {
    UnsetEachIff(x.safe, ds);
  }

  const ADDED: string := "lusdHoldingPCVDeposit"
  const REMOVED: seq<string> := MAINTENANCE[2].removed
  const UNSET: seq<string> := MAINTENANCE[3].unset

  /** The added deposit is new and priced, the removed ones are registered, and the unset ones safe. */
  ghost predicate CanMaintain(s: Surroundings, x: Chain) {
    && ADDED !in x.deposits && ADDED in s.reportedIn
    && (s.reportedIn[ADDED] in x.oracles || s.reportedIn[ADDED] == "weth")
    && (forall i :: 0 <= i < |REMOVED| ==> REMOVED[i] in x.deposits)
    && (forall i :: 0 <= i < |UNSET| ==> UNSET[i] in x.safe)
  }

  lemma NamesApart()
    ensures Distinct(REMOVED) && Distinct(UNSET) && ADDED !in REMOVED
  {
    assert |"aaveFeiPCVDepositWrapper"| == 24 && |"compoundFeiPCVDepositWrapper"| == 28
           && |"lusdToDaiLensLusd"| == 17 && |"lusdToDaiLensDai"| == 16
           && |"tribalCouncilTimelockFeiLens"| == 28
           && "compoundFeiPCVDepositWrapper"[0] != "tribalCouncilTimelockFeiLens"[0];
    assert "voltHoldingPCVDeposit"[0] != "gOHMHoldingPCVDeposit"[0];
  }

  /** The new oracle is set, the new deposit registered, and the old deposits and safe addresses are gone. */
  ghost predicate MaintainedTo(s: Surroundings, x: Chain, y: Chain)
    requires ADDED in s.reportedIn
  {
    && y.oracles == x.oracles["weth" := "chainlinkStEthUsdOracleWrapper"]
    && y.deposits == x.deposits[ADDED := s.reportedIn[ADDED]] - (set d | d in REMOVED)
    && y.safe == x.safe - (set d | d in UNSET)
  }

  lemma MaintenanceEffect(s: Surroundings, x: Chain)
    ensures var r := ActAll(s, x, MAINTENANCE);
            && (r.Some? <==> CanMaintain(s, x))
            && (r.Some? ==> r.value.ledger == x.ledger && MaintainedTo(s, x, r.value))
  {
    NamesApart();
    var x1 := x.(oracles := x.oracles["weth" := "chainlinkStEthUsdOracleWrapper"]);
    assert MAINTENANCE[1..][1..][1..][1..] == [];
    assert ActAll(s, x, MAINTENANCE) == ActAll(s, x1, MAINTENANCE[1..]);
    assert [ADDED][1..] == [];
    var added := Act(s, x1, MAINTENANCE[1]);
    if added.Some? {
      assert added.value == x1.(deposits := x.deposits[ADDED := s.reportedIn[ADDED]]);
      RemoveEachIff(added.value.deposits, REMOVED);
      UnsetEachIff(x.safe, UNSET);
      var removed := Act(s, added.value, MAINTENANCE[2]);
      assert MAINTENANCE[1..][1..][0] == MAINTENANCE[2] && MAINTENANCE[1..][1..][1..][0] == MAINTENANCE[3];
      if removed.Some? {
        assert removed.value.deposits == added.value.deposits - (set d | d in REMOVED);
        var unset := Act(s, removed.value, MAINTENANCE[3]);
      }
    }
  }

  // ---------- The whole proposal ----------

  ghost predicate CanRun(s: Surroundings, x: Chain)
    requires Stage(s.env)
  {
    CanCleanUp(s.env, x.ledger) && CanClawBack(x.ledger) && CanMaintain(s, x)
  }

  /** Cleaned up and clawed back, by way of some ledger in between. */
  ghost predicate ClearedTo(env: Env, l: Ledger, r: Ledger)
    requires Stage(env)
  {
    exists m :: CleanedUpTo(env, l, m) && ClawedBackTo(m, r)
  }

  ghost predicate RanTo(s: Surroundings, x: Chain, y: Chain)
    requires Stage(s.env)
  {
    && ClearedTo(s.env, x.ledger, y.ledger)
    && ADDED in s.reportedIn && MaintainedTo(s, x, y)
  }

  lemma ClawbackAfterCleanup(env: Env, l: Ledger, r: Ledger)
    requires Stage(env) && CleanedUpTo(env, l, r)
    ensures CanClawBack(r) <==> CanClawBack(l)
  {
  }

  /** The nine ledger commands, before the maintenance. */
  lemma LedgerPartEffect(s: Surroundings, x: Chain)
    requires Stage(s.env)
    ensures var r := ActAll(s, x, LedgerActions(CLEANUP) + LedgerActions(CLAWBACK));
            && (r.Some? <==> CanCleanUp(s.env, x.ledger) && CanClawBack(x.ledger))
            && (r.Some? ==>
                  && r.value == x.(ledger := r.value.ledger)
                  && ClearedTo(s.env, x.ledger, r.value.ledger))
  {
    ActAllConcat(s, x, LedgerActions(CLEANUP), LedgerActions(CLAWBACK));
    LedgerActionsRun(s, x, CLEANUP);
    CleanupEffect(s.env, x.ledger);
    var cleaned := Run(s.env, x.ledger, CLEANUP);
    if cleaned.Some? {
      LedgerActionsRun(s, x.(ledger := cleaned.value), CLAWBACK);
      ClawbackAfterCleanup(s.env, x.ledger, cleaned.value);
      ClawbackEffect(s.env, cleaned.value);
    }
  }

  lemma {:induction false} ProposalInTwo(s: Surroundings, x: Chain)
    ensures ActAll(s, x, PROPOSAL) ==
            (match ActAll(s, x, LedgerActions(CLEANUP) + LedgerActions(CLAWBACK))
               case None => None
               case Some(y) => ActAll(s, y, MAINTENANCE))
  {
    ActAllConcat(s, x, LedgerActions(CLEANUP) + LedgerActions(CLAWBACK), MAINTENANCE);
  }

  lemma MaintenanceIgnoresLedger(s: Surroundings, x: Chain, l: Ledger)
    ensures CanMaintain(s, x.(ledger := l)) <==> CanMaintain(s, x)
  {
  }

  /** The thirteen commands go through exactly when each of the three parts can. */
  lemma {:induction false} ProposalEffect(s: Surroundings, x: Chain)
    requires Stage(s.env)
    ensures var r := ActAll(s, x, PROPOSAL);
            && (r.Some? <==> CanRun(s, x))
            && (r.Some? ==> RanTo(s, x, r.value))
  {
    ProposalInTwo(s, x);
    LedgerPartEffect(s, x);
    var clawed := ActAll(s, x, LedgerActions(CLEANUP) + LedgerActions(CLAWBACK));
    if clawed.Some? {
      MaintenanceEffect(s, clawed.value);
      MaintenanceIgnoresLedger(s, x, clawed.value.ledger);
    }
  }

  /** What the proposal's last four commands are for, by name. */
  lemma MaintainedByName(s: Surroundings, x: Chain, y: Chain)
    requires ADDED in s.reportedIn && MaintainedTo(s, x, y)
    ensures "weth" in y.oracles && y.oracles["weth"] == "chainlinkStEthUsdOracleWrapper"
    ensures "lusdHoldingPCVDeposit" in y.deposits
    ensures "aaveFeiPCVDepositWrapper" !in y.deposits && "compoundFeiPCVDepositWrapper" !in y.deposits
    ensures "lusdToDaiLensLusd" !in y.deposits && "lusdToDaiLensDai" !in y.deposits
    ensures "tribalCouncilTimelockFeiLens" !in y.deposits
    ensures "voltHoldingPCVDeposit" !in y.safe && "gOHMHoldingPCVDeposit" !in y.safe
    ensures forall d | d in x.deposits && d !in REMOVED :: d in y.deposits
  {
    NamesApart();
    assert REMOVED[0] in REMOVED && REMOVED[1] in REMOVED && REMOVED[2] in REMOVED;
    assert REMOVED[3] in REMOVED && REMOVED[4] in REMOVED && |REMOVED| == 5;
    assert UNSET[0] in UNSET && UNSET[1] in UNSET && |UNSET| == 2;
  }

  /** What validate asks of the cleanup, read off the ledger before it. */
  ghost predicate MeetsMinima(env: Env, l: Ledger)
    requires Stage(env)
  {
    && Balance(l, Lusd, LusdHolding) + Swept(env, l, LusdToDaiSwapper, Lusd) > MIN_LUSD_SWAP_LUSD
    && Received(env, AllEth(env, l)) > MIN_WETH_SWAP_WETH
    && DaiOut(env, l) > MIN_LUSD_SWAP_DAI + MIN_WETH_SWAP_DAI
  }

  /** What validate asks of the result, read off the state before the run. */
  ghost predicate Ready(s: Surroundings, x: Chain)
    requires Stage(s.env)
  {
    var l := x.ledger;
    && CanRun(s, x)
    && Balance(l, Tribe, TribalCouncilTimelock) == TC_TRIBE_BALANCE
    && Balance(l, Fei, TribalCouncilTimelock) == TC_FEI_BALANCE
    && Balance(l, Fei, FeiDAOTimelock) == 0
    && MeetsMinima(s.env, l)
  }

  lemma PassesAfter(
    s: Surroundings, x: Chain, l: Ledger, y: Chain, equityBefore: int, equityAfter: int, stethPrice: nat)
    requires Stage(s.env) && CanRun(s, x)
    requires CleanedUpTo(s.env, x.ledger, l) && ClawedBackTo(l, y.ledger)
    requires y.oracles == x.oracles["weth" := "chainlinkStEthUsdOracleWrapper"]
    ensures Passes(SnapshotOf(x.ledger, equityBefore), y, equityAfter, stethPrice) <==>
              Ready(s, x) && Plausible(equityBefore, equityAfter, stethPrice)
  {
    assert forall t: Token, a: Account :: t in {Lusd, Dai, Weth, Steth} ==> Balance(y.ledger, t, a) == Balance(l, t, a);
  }

  /**
   The proposal runs and meets its own validate exactly from the states that are ready for it, given
   that the two oracles' readings stay within their bounds.
   */
  lemma {:induction false} ValidatedIffReady(
    s: Surroundings, x: Chain, equityBefore: int, equityAfter: int, stethPrice: nat)
    requires Stage(s.env)
    ensures var r := ActAll(s, x, PROPOSAL);
            r.Some? && Passes(SnapshotOf(x.ledger, equityBefore), r.value, equityAfter, stethPrice) <==>
              Ready(s, x) && Plausible(equityBefore, equityAfter, stethPrice)
  {
    ProposalEffect(s, x);
    var r := ActAll(s, x, PROPOSAL);
    if r.Some? {
      var l :| CleanedUpTo(s.env, x.ledger, l) && ClawedBackTo(l, r.value.ledger);
      PassesAfter(s, x, l, r.value, equityBefore, equityAfter, stethPrice);
    }
  }

  /** A ready ledger: pools just above the minima, and stETH staked one for one with no stETH in the stable swap. */
  const READY_LEDGER: Ledger := Ledger(
    map[
      (Tribe, TribalCouncilTimelock) := TC_TRIBE_BALANCE,
      (Fei, TribalCouncilTimelock) := TC_FEI_BALANCE,
      (Lusd, BalancerVault) := MIN_LUSD_SWAP_LUSD + 1,
      (Weth, BalancerVault) := MIN_WETH_SWAP_WETH + 1,
      (Dai, BalancerVault) := MIN_LUSD_SWAP_DAI + MIN_WETH_SWAP_DAI + 1,
      (Eth, WethContract) := MIN_WETH_SWAP_WETH + 1],
    map[
      (Fei, TribalCouncilTimelock, FeiDAOTimelock) := Tc.CLAWED_BACK_FEI_UPPER_BOUND,
      (Tribe, TribalCouncilTimelock, FeiDAOTimelock) := Tc.CLAWED_BACK_TRIBE_UPPER_BOUND],
    map[Fei := TC_FEI_BALANCE])

  const READY_ENV: Env := Env(
    FeiDAOTimelock,
    map[
      LusdToDaiSwapper := Swapper(Lusd, Dai, MIN_LUSD_SWAP_LUSD + 1, MIN_LUSD_SWAP_DAI),
      EthToDaiSwapper := Swapper(Weth, Dai, MIN_WETH_SWAP_WETH + 1, MIN_WETH_SWAP_DAI + 1)],
    map[],
    n => n,
    n => n,
    n => n,
    0)

  lemma ReadyLedgerCleansUp()
    ensures Stage(READY_ENV) && CanCleanUp(READY_ENV, READY_LEDGER)
    ensures AllEth(READY_ENV, READY_LEDGER) == MIN_WETH_SWAP_WETH + 1
  {
    assert AllEth(READY_ENV, READY_LEDGER) == MIN_WETH_SWAP_WETH + 1;
  }

  lemma ReadyLedgerClawsBack()
    ensures CanClawBack(READY_LEDGER)
    ensures Balance(READY_LEDGER, Tribe, TribalCouncilTimelock) == TC_TRIBE_BALANCE
    ensures Balance(READY_LEDGER, Fei, TribalCouncilTimelock) == TC_FEI_BALANCE
    ensures Balance(READY_LEDGER, Fei, FeiDAOTimelock) == 0
  {
  }

  lemma ReadyLedgerMeetsMinima()
    ensures Stage(READY_ENV)
    ensures Balance(READY_LEDGER, Lusd, LusdHolding) + Swept(READY_ENV, READY_LEDGER, LusdToDaiSwapper, Lusd)
            > MIN_LUSD_SWAP_LUSD
    ensures Received(READY_ENV, AllEth(READY_ENV, READY_LEDGER)) > MIN_WETH_SWAP_WETH
    ensures DaiOut(READY_ENV, READY_LEDGER) > MIN_LUSD_SWAP_DAI + MIN_WETH_SWAP_DAI
  {
    ReadyLedgerCleansUp();
  }

  const READY_SURROUNDINGS: Surroundings := Surroundings(READY_ENV, map[ADDED := "lusd"])

  const READY_CHAIN: Chain :=
    Chain(READY_LEDGER, map["lusd" := "oracle"], map d | d in REMOVED :: "fei", set d | d in UNSET)

  lemma ReadyChainMaintains()
    ensures CanMaintain(READY_SURROUNDINGS, READY_CHAIN)
  {
    NamesApart();
  }

  /** So there are states from which the proposal meets its validate. */
  lemma ReadyChainIsReady()
    ensures Stage(READY_SURROUNDINGS.env) && Ready(READY_SURROUNDINGS, READY_CHAIN)
  {
    ReadyLedgerCleansUp();
    ReadyLedgerClawsBack();
    ReadyLedgerMeetsMinima();
    ReadyChainMaintains();
  }

  // ---------- After tc_consolidate ----------

  /** The treasury that tip_121a_cont counts on: its balances, the approvals, and FEI that is fully backed. */
  ghost predicate Consolidated(l: Ledger) {
    && Balance(l, Tribe, TribalCouncilTimelock) == TC_TRIBE_BALANCE
    && Balance(l, Fei, TribalCouncilTimelock) == TC_FEI_BALANCE
    && Balance(l, Fei, FeiDAOTimelock) == 0
    && Allowance(l, Fei, TribalCouncilTimelock, FeiDAOTimelock) == Tc.CLAWED_BACK_FEI_UPPER_BOUND
    && Allowance(l, Tribe, TribalCouncilTimelock, FeiDAOTimelock) == Tc.CLAWED_BACK_TRIBE_UPPER_BOUND
    && Backed(l, Fei)
  }

  /**
   tc_consolidate leaves that treasury, approvals included, exactly when what is left of the
   council's FEI and TRIBE after burning and vesting is what the later proposal names.
   */
  lemma ConsolidationLeavesTreasuryIff(env: Env, l: Ledger)
    requires Tc.Stage(env) && Tc.CanConsolidate(env, l)
    ensures Run(env, l, Tc.CONSOLIDATION).Some?
    ensures Consolidated(Run(env, l, Tc.CONSOLIDATION).value) <==>
              && Tc.FeiLeft(env, l) == TC_FEI_BALANCE && Tc.TribeLeft(env, l) == TC_TRIBE_BALANCE
              && Balance(l, Fei, FeiDAOTimelock) == 0 && Backed(l, Fei)
  {
    Tc.ConsolidationEffect(env, l);
    RunConserves(env, l, Tc.CONSOLIDATION, Fei);
  }

  /** An account's balance is part of the sum. */
  lemma BalanceWithinSum(l: Ledger, t: Token, a: Account)
    ensures Balance(l, t, a) <= InAll(l, t)
  {
    if (t, a) in l.balances {
      TotalPick(l.balances, (t, a), t);
    }
  }

  /**
   From every consolidated treasury the approvals and the supply suffice: the run can only fail in
   its cleanup or maintenance, and when it does not, exactly the stated FEI is burnt, exactly the
   stated TRIBE reaches the core, and both timelocks and both swappers are empty.
   */
  lemma ConsolidatedTreasuryIsCleared(s: Surroundings, x: Chain)
    requires Stage(s.env) && Consolidated(x.ledger)
    ensures var r := ActAll(s, x, PROPOSAL);
            && (r.Some? <==> CanCleanUp(s.env, x.ledger) && CanMaintain(s, x))
            && (r.Some? ==>
                  && Supply(r.value.ledger, Fei) + TC_FEI_BALANCE == Supply(x.ledger, Fei)
                  && Balance(r.value.ledger, Tribe, Core) == Balance(x.ledger, Tribe, Core) + TC_TRIBE_BALANCE
                  && (forall t | t in {Fei, Tribe} :: Balance(r.value.ledger, t, TribalCouncilTimelock) == 0)
                  && Balance(r.value.ledger, Fei, FeiDAOTimelock) == 0
                  && (forall t | t in {Lusd, Dai} :: Balance(r.value.ledger, t, LusdToDaiSwapper) == 0)
                  && (forall t | t in {Weth, Dai} :: Balance(r.value.ledger, t, EthToDaiSwapper) == 0))
  {
    ProposalEffect(s, x);
    BalanceWithinSum(x.ledger, Fei, TribalCouncilTimelock);
    assert CanClawBack(x.ledger);
    var r := ActAll(s, x, PROPOSAL);
    if r.Some? {
      var l :| CleanedUpTo(s.env, x.ledger, l) && ClawedBackTo(l, r.value.ledger);
      assert forall t: Token, a: Account :: t !in {Fei, Tribe} ==> Balance(r.value.ledger, t, a) == Balance(l, t, a);
    }
  }

  // ---------- Both proposals in turn ----------

  /** What the cleanup works on. */
  ghost predicate SamePools(l: Ledger, r: Ledger) {
    forall t: Token, a: Account :: t in {Lusd, Dai, Weth, Eth, Steth} ==> Balance(r, t, a) == Balance(l, t, a)
  }

  lemma {:induction false} ConsolidationKeepsPools(tcEnv: Env, l: Ledger, r: Ledger)
    requires Tc.Stage(tcEnv) && Tc.ConsolidatedTo(tcEnv, l, r)
    ensures SamePools(l, r)
  {
  }

  lemma {:induction false} CleanupReadsPools(env: Env, l: Ledger, r: Ledger)
    requires Stage(env) && SamePools(l, r)
    ensures CanCleanUp(env, r) <==> CanCleanUp(env, l)
  {
  }

  lemma {:induction false} MinimaReadPools(env: Env, l: Ledger, r: Ledger)
    requires Stage(env) && SamePools(l, r)
    ensures MeetsMinima(env, r) <==> MeetsMinima(env, l)
  {
  }

  /** The treasury before tc_consolidate from which both proposals can draw exactly what they name. */
  ghost predicate Funded(tcEnv: Env, l: Ledger)
    requires Tc.Stage(tcEnv)
  {
    && Tc.CanBurnAndClawBack(tcEnv, l) && Tc.ExactAssets(l)
    && Tc.FeiLeft(tcEnv, l) == TC_FEI_BALANCE && Tc.TribeLeft(tcEnv, l) == TC_TRIBE_BALANCE
    && Balance(l, Fei, FeiDAOTimelock) == 0
    && Tc.TC_FEI_TO_BURN + TC_FEI_BALANCE <= Supply(l, Fei)
  }

  lemma ReadyAfterConsolidation(tcEnv: Env, s: Surroundings, x: Chain, r: Ledger)
    requires Tc.Stage(tcEnv) && Stage(s.env)
    requires Tc.CanBurnAndClawBack(tcEnv, x.ledger) && Tc.ExactAssets(x.ledger)
    requires Tc.ConsolidatedTo(tcEnv, x.ledger, r)
    ensures Ready(s, x.(ledger := r)) <==>
              && Funded(tcEnv, x.ledger) && CanCleanUp(s.env, x.ledger) && MeetsMinima(s.env, x.ledger)
              && CanMaintain(s, x)
  {
    ConsolidationKeepsPools(tcEnv, x.ledger, r);
    CleanupReadsPools(s.env, x.ledger, r);
    MinimaReadPools(s.env, x.ledger, r);
    MaintenanceIgnoresLedger(s, x, r);
    assert Approved(r, Fei, TC_FEI_BALANCE) && Approved(r, Tribe, TC_TRIBE_BALANCE);
  }

  /** tc_consolidate and then, with nothing in between on the ledger, tip_121a_cont: both run and both pass. */
  ghost predicate BothPass(
    tcEnv: Env, s: Surroundings, x: Chain, equityBefore: int, equityAfter: int, stethPrice: nat)
  {
    var first := Run(tcEnv, x.ledger, Tc.CONSOLIDATION);
    && first.Some? && Tc.Passes(Supply(x.ledger, Fei), first.value)
    && var second := ActAll(s, x.(ledger := first.value), PROPOSAL);
       second.Some? && Passes(SnapshotOf(first.value, equityBefore), second.value, equityAfter, stethPrice)
  }

  /** Both proposals run in turn and meet their validates exactly from a funded treasury and full pools. */
  lemma BothPassIff(tcEnv: Env, s: Surroundings, x: Chain, equityBefore: int, equityAfter: int, stethPrice: nat)
    requires Tc.Stage(tcEnv) && Stage(s.env)
    ensures BothPass(tcEnv, s, x, equityBefore, equityAfter, stethPrice) <==>
              && Funded(tcEnv, x.ledger) && CanCleanUp(s.env, x.ledger) && MeetsMinima(s.env, x.ledger)
              && CanMaintain(s, x) && Plausible(equityBefore, equityAfter, stethPrice)
  {
    Tc.ValidatedIffExact(tcEnv, x.ledger);
    Tc.ConsolidationEffect(tcEnv, x.ledger);
    var first := Run(tcEnv, x.ledger, Tc.CONSOLIDATION);
    if Tc.CanBurnAndClawBack(tcEnv, x.ledger) && Tc.ExactAssets(x.ledger) {
      ReadyAfterConsolidation(tcEnv, s, x, first.value);
      ValidatedIffReady(s, x.(ledger := first.value), equityBefore, equityAfter, stethPrice);
    }
  }
}
