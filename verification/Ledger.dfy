/**
 Token balances, allowances and supplies, and the ledger commands of the proposals: EIP-20
 transfers, approvals and burns (contracts/fei/Fei.sol, contracts/tribe/Tribe.sol), exitPool
 (contracts/pcv/balancer/BalancerLBPSwapper.sol), the ratio withdrawals of
 contracts/pcv/utils/RatioPCVControllerV2.sol, staking (contracts/pcv/lido/EthLidoPCVDeposit.sol)
 and clawback (contracts/timelocks/TokenTimelock.sol).
 */
module Ledger {
  import opened Bytes

  datatype Token = Lusd | Dai | Weth | Fei | Tribe | Eth | Steth | Idle | Lqty | Fox

  /** The named addresses are pairwise distinct; any further holder is Other. */
  datatype Account =
    | TribalCouncilTimelock | FeiDAOTimelock | TribalCouncilSafe | Core
    | LusdToDaiSwapper | EthToDaiSwapper | BalancerVault
    | DaiHolding | LusdHolding | WethHolding
    | RatioController | WethContract | EthLidoDeposit | StableSwap | LidoContract
    | RariInfraFeiTimelock | RariInfraTribeTimelock
    | Other(id: nat)

  type Holdings = map<(Token, Account), nat>

  datatype Ledger = Ledger(
    balances: Holdings,
    allowances: map<(Token, Account, Account), nat>,
    supplies: map<Token, nat>)

  function Held(m: Holdings, t: Token, a: Account): nat {
    if (t, a) in m then m[(t, a)] else 0
  }

  function Balance(l: Ledger, t: Token, a: Account): nat {
    Held(l.balances, t, a)
  }

  /** WETH keeps no supply of its own: it reports the ETH it holds (contracts/external/WETH9.sol). */
  function Supply(l: Ledger, t: Token): nat {
    if t == Weth then Balance(l, Eth, WethContract) else if t in l.supplies then l.supplies[t] else 0
  }

  function Allowance(l: Ledger, t: Token, owner: Account, spender: Account): nat {
    if (t, owner, spender) in l.allowances then l.allowances[(t, owner, spender)] else 0
  }

  // ---------- Transfers, mints and burns ----------

  /** The holdings after a payment; the payee is read after the payer is debited. */
  function Moved(m: Holdings, t: Token, from: Account, to: Account, amount: nat): Holdings
    requires amount <= Held(m, t, from)
  {
    var debited := m[(t, from) := Held(m, t, from) - amount];
    debited[(t, to) := Held(debited, t, to) + amount]
  }

  function Transfer(l: Ledger, t: Token, from: Account, to: Account, amount: nat): Option<Ledger> {
    if amount > Balance(l, t, from) then None
    else Some(l.(balances := Moved(l.balances, t, from, to, amount)))
  }

  function TransferAll(l: Ledger, t: Token, from: Account, to: Account): Ledger {
    Transfer(l, t, from, to, Balance(l, t, from)).value
  }

  /** FEI's burn: the holder's balance and the supply fall together. */
  function BurnFei(l: Ledger, holder: Account, amount: nat): Option<Ledger> {
    if amount > Balance(l, Fei, holder) || amount > Supply(l, Fei) then None
    else
      Some(l.(balances := l.balances[(Fei, holder) := Balance(l, Fei, holder) - amount],
              supplies := l.supplies[Fei := Supply(l, Fei) - amount]))
  }

  function MintSteth(l: Ledger, holder: Account, amount: nat): Ledger {
    l.(balances := l.balances[(Steth, holder) := Balance(l, Steth, holder) + amount],
       supplies := l.supplies[Steth := Supply(l, Steth) + amount])
  }

  function Debited(l: Ledger, t: Token, holder: Account, amount: nat): Ledger
    requires amount <= Balance(l, t, holder)
  {
    l.(balances := l.balances[(t, holder) := Balance(l, t, holder) - amount])
  }

  /** WETH's withdraw: the holder's WETH is gone, and the contract pays ETH for it. */
  function WithdrawWeth(l: Ledger, holder: Account, amount: nat): Option<Ledger> {
    if amount > Balance(l, Weth, holder) then None
    else Transfer(Debited(l, Weth, holder, amount), Eth, WethContract, holder, amount)
  }

  const UINT96_MAX: nat := 0xffffffff_ffffffff_ffffffff

  /** An allowance of the type's maximum is never used up; TRIBE also exempts the owner itself. */
  predicate Spends(l: Ledger, t: Token, owner: Account, spender: Account) {
    if t == Tribe then owner != spender && Allowance(l, t, owner, spender) != UINT96_MAX
    else Allowance(l, t, owner, spender) != WORDS - 1
  }

  /** The allowances once the amount is taken out of them; None when it is not allowed. */
  function Spent(
    l: Ledger, t: Token, owner: Account, spender: Account, amount: nat): Option<map<(Token, Account, Account), nat>>
  {
    if !Spends(l, t, owner, spender) then Some(l.allowances)
    else if amount > Allowance(l, t, owner, spender) then None
    else Some(l.allowances[(t, owner, spender) := Allowance(l, t, owner, spender) - amount])
  }

  function TransferFrom(
    l: Ledger, t: Token, spender: Account, from: Account, to: Account, amount: nat): Option<Ledger>
  {
    if t == Tribe && amount > UINT96_MAX then None
    else
      match Spent(l, t, from, spender, amount)
      case None => None
      case Some(left) => Transfer(l.(allowances := left), t, from, to, amount)
  }

  /** What an approval records: TRIBE keeps 96 bits, with all of 256 bits for its own maximum. */
  function Approval(t: Token, amount: nat): Option<nat> {
    if t != Tribe then Some(amount)
    else if amount == WORDS - 1 then Some(UINT96_MAX)
    else if amount > UINT96_MAX then None
    else Some(amount)
  }

  // ---------- Commands ----------

  datatype Command =
    | ExitPool(swapper: Account, to: Account)
    | WithdrawRatioERC20(deposit: Account, token: Token, to: Account, basisPoints: nat)
    | WithdrawRatioUnwrapWETH(deposit: Account, to: Account, basisPoints: nat)
    | DepositToLido
    | TransferFromCommand(token: Token, from: Account, to: Account, amount: nat)
    | BurnCommand(amount: nat)
    | TransferCommand(token: Token, to: Account, amount: nat)
    | ApproveCommand(token: Token, spender: Account, amount: nat)
    | Clawback(lock: Account)

  /** A swapper's two tokens, and what the vault pays out for the pool shares it still holds. */
  datatype Swapper = Swapper(spent: Token, received: Token, spentOut: nat, receivedOut: nat)

  /** A vesting timelock, with what it could release at the time of the run. */
  datatype Lock = Lock(token: Token, beneficiary: Account, admin: Account, passedCliff: bool, available: nat)

  /**
   The surroundings a run meets: who acts, the swappers and the timelocks; the stETH that the stable
   swap quotes and then pays for an amount of ETH, and that Lido mints for it when it is submitted
   there; and the slippage the Lido deposit tolerates.
   */
  datatype Env = Env(
    acting: Account,
    swappers: map<Account, Swapper>,
    locks: map<Account, Lock>,
    quoted: nat -> nat,
    swapped: nat -> nat,
    submitted: nat -> nat,
    maximumSlippage: nat)

  const BASIS_POINTS: nat := 10000

  /** The part of a balance that a ratio withdrawal takes; it must be something. */
  function Ratio(balance: nat, basisPoints: nat): Option<nat> {
    if basisPoints > BASIS_POINTS || balance * basisPoints / BASIS_POINTS == 0 then None
    else Some(balance * basisPoints / BASIS_POINTS)
  }

  function ExitPoolStep(env: Env, l: Ledger, swapper: Account, to: Account): Option<Ledger> {
    if swapper !in env.swappers then None
    else
      var s := env.swappers[swapper];
      match Transfer(l, s.spent, BalancerVault, swapper, s.spentOut)
      case None => None
      case Some(l1) =>
        match Transfer(l1, s.received, BalancerVault, swapper, s.receivedOut)
        case None => None
        case Some(l2) => Some(TransferAll(TransferAll(l2, s.spent, swapper, to), s.received, swapper, to))
  }

  /** WETH goes to the controller, is withdrawn as ETH there, and the ETH is sent on. */
  function UnwrapStep(l: Ledger, deposit: Account, to: Account, amount: nat): Option<Ledger> {
    match Transfer(l, Weth, deposit, RatioController, amount)
    case None => None
    case Some(l1) =>
      match WithdrawWeth(l1, RatioController, amount)
      case None => None
      case Some(l2) => Transfer(l2, Eth, RatioController, to, amount)
  }

  /** The stable swap is used only when it quotes more stETH than the ETH put in. */
  predicate Swaps(env: Env, amount: nat) {
    env.quoted(amount) > amount
  }

  /** A swap for no less than the ETH put in, out of what the pool has. */
  function SwapStep(env: Env, l: Ledger, amount: nat): Option<Ledger> {
    if env.swapped(amount) < amount then None
    else
      match Transfer(l, Eth, EthLidoDeposit, StableSwap, amount)
      case None => None
      case Some(l1) => Transfer(l1, Steth, StableSwap, EthLidoDeposit, env.swapped(amount))
  }

  /** Otherwise the ETH is staked with Lido, which mints stETH for it. */
  function SubmitStep(env: Env, l: Ledger, amount: nat): Option<Ledger> {
    match Transfer(l, Eth, EthLidoDeposit, LidoContract, amount)
    case None => None
    case Some(l1) => Some(MintSteth(l1, EthLidoDeposit, env.submitted(amount)))
  }

  function Received(env: Env, amount: nat): nat {
    if Swaps(env, amount) then env.swapped(amount) else env.submitted(amount)
  }

  function LidoStep(env: Env, l: Ledger): Option<Ledger> {
    var amount := Balance(l, Eth, EthLidoDeposit);
    if amount == 0 || env.maximumSlippage > BASIS_POINTS then None
    else if Received(env, amount) < amount * (BASIS_POINTS - env.maximumSlippage) / BASIS_POINTS then None
    else if Swaps(env, amount) then SwapStep(env, l, amount)
    else SubmitStep(env, l, amount)
  }

  /** The vested part goes to the beneficiary once the cliff is passed, and all the rest to the admin. */
  function ClawbackStep(env: Env, l: Ledger, lock: Account): Option<Ledger> {
    if lock !in env.locks || env.locks[lock].admin != env.acting then None
    else
      var k := env.locks[lock];
      match Transfer(l, k.token, lock, k.beneficiary, if k.passedCliff then k.available else 0)
      case None => None
      case Some(released) => Some(TransferAll(released, k.token, lock, k.admin))
  }

  function Step(env: Env, l: Ledger, c: Command): Option<Ledger> {
    match c
    case ExitPool(swapper, to) => ExitPoolStep(env, l, swapper, to)
    case WithdrawRatioERC20(deposit, token, to, basisPoints) =>
      (match Ratio(Balance(l, token, deposit), basisPoints)
       case None => None
       case Some(amount) => Transfer(l, token, deposit, to, amount))
    case WithdrawRatioUnwrapWETH(deposit, to, basisPoints) =>
      (match Ratio(Balance(l, Weth, deposit), basisPoints)
       case None => None
       case Some(amount) => UnwrapStep(l, deposit, to, amount))
    case DepositToLido => LidoStep(env, l)
    case TransferFromCommand(token, from, to, amount) => TransferFrom(l, token, env.acting, from, to, amount)
    case BurnCommand(amount) => BurnFei(l, env.acting, amount)
    case TransferCommand(token, to, amount) =>
      if token == Tribe && amount > UINT96_MAX then None else Transfer(l, token, env.acting, to, amount)
    case ApproveCommand(token, spender, amount) =>
      (match Approval(token, amount)
       case None => None
       case Some(n) => Some(l.(allowances := l.allowances[(token, env.acting, spender) := n])))
    case Clawback(lock) => ClawbackStep(env, l, lock)
  }

  function Run(env: Env, l: Ledger, cs: seq<Command>): Option<Ledger>
    decreases |cs|
  {
    if cs == [] then Some(l)
    else
      match Step(env, l, cs[0])
      case None => None
      case Some(next) => Run(env, next, cs[1..])
  }
}
