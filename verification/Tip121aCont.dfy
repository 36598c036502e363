/**
 The tip_121a_cont proposal (proposals/description/tip_121a_cont.ts) as a program, and its own
 setup and validate (proposals/dao/tip_121a_cont.ts) as that program's specification.
 */
module Tip121aCont {
  import opened Bytes
  import opened Ledger

  const TC_FEI_BALANCE: nat := 2733169815107120096987175
  const TC_TRIBE_BALANCE: nat := 2733170474316903966022879

  const WEI_PER_ETHER: nat := 1000000000000000000
  const MIN_LUSD_SWAP_LUSD: nat := 5000 * WEI_PER_ETHER
  const MIN_LUSD_SWAP_DAI: nat := 300000 * WEI_PER_ETHER
  const MIN_WETH_SWAP_WETH: nat := 40 * WEI_PER_ETHER
  const MIN_WETH_SWAP_DAI: nat := 1500000 * WEI_PER_ETHER

  const STETH_UPPER_PRICE: nat := 1900 * WEI_PER_ETHER
  const STETH_LOWER_PRICE: nat := 1100 * WEI_PER_ETHER

  const PCV_DIFF_UPPER: int := 1000000 * WEI_PER_ETHER
  const PCV_DIFF_LOWER: int := -6000000 * WEI_PER_ETHER

  // ---------- State beyond the ledger ----------

  /** The collateralization oracle's maps and the guardian's safe addresses, on named contracts. */
  datatype Chain = Chain(ledger: Ledger, oracles: map<string, string>, deposits: map<string, string>, safe: set<string>)

  datatype Action =
    | OnLedger(c: Command)
    | SetOracle(token: string, oracle: string)
    | AddDeposits(added: seq<string>)
    | RemoveDeposits(removed: seq<string>)
    | UnsetSafeAddresses(unset: seq<string>)

  /** What each deposit says it reports in, besides the ledger's surroundings. */
  datatype Surroundings = Surroundings(env: Env, reportedIn: map<string, string>)

  function AddEach(
    reportedIn: map<string, string>, oracles: map<string, string>, deposits: map<string, string>, ds: seq<string>)
    : Option<map<string, string>>
    decreases |ds|
  {
    if ds == [] then Some(deposits)
    else if ds[0] in deposits || ds[0] !in reportedIn || reportedIn[ds[0]] !in oracles then None
    else AddEach(reportedIn, oracles, deposits[ds[0] := reportedIn[ds[0]]], ds[1..])
  }

  function RemoveEach(deposits: map<string, string>, ds: seq<string>): Option<map<string, string>>
    decreases |ds|
  {
    if ds == [] then Some(deposits)
    else if ds[0] !in deposits then None
    else RemoveEach(deposits - {ds[0]}, ds[1..])
  }

  function UnsetEach(safe: set<string>, ds: seq<string>): Option<set<string>>
    decreases |ds|
  {
    if ds == [] then Some(safe)
    else if ds[0] !in safe then None
    else UnsetEach(safe - {ds[0]}, ds[1..])
  }

  function Act(s: Surroundings, x: Chain, a: Action): Option<Chain> {
    match a
    case OnLedger(c) =>
      (match Step(s.env, x.ledger, c) case None => None case Some(l) => Some(x.(ledger := l)))
    case SetOracle(token, oracle) => Some(x.(oracles := x.oracles[token := oracle]))
    case AddDeposits(added) =>
      (match AddEach(s.reportedIn, x.oracles, x.deposits, added)
         case None => None
         case Some(d) => Some(x.(deposits := d)))
    case RemoveDeposits(removed) =>
      (match RemoveEach(x.deposits, removed) case None => None case Some(d) => Some(x.(deposits := d)))
    case UnsetSafeAddresses(unset) =>
      if unset == [] then None
      else (match UnsetEach(x.safe, unset) case None => None case Some(safe) => Some(x.(safe := safe)))
  }

  function ActAll(s: Surroundings, x: Chain, actions: seq<Action>): Option<Chain>
    decreases |actions|
  {
    if actions == [] then Some(x)
    else
      match Act(s, x, actions[0])
      case None => None
      case Some(next) => ActAll(s, next, actions[1..])
  }

  // ---------- The proposal ----------

  /** Steps 1 and 2: empty both swappers, and stake the WETH. */
  const CLEANUP: seq<Command> := [
    ExitPool(LusdToDaiSwapper, DaiHolding),
    WithdrawRatioERC20(DaiHolding, Lusd, LusdHolding, BASIS_POINTS),
    ExitPool(EthToDaiSwapper, DaiHolding),
    WithdrawRatioERC20(DaiHolding, Weth, WethHolding, BASIS_POINTS),
    WithdrawRatioUnwrapWETH(WethHolding, EthLidoDeposit, BASIS_POINTS),
    DepositToLido]

  /** Step 3: TRIBE to the treasury, FEI to the DAO timelock and burnt. */
  const CLAWBACK: seq<Command> := [
    TransferFromCommand(Tribe, TribalCouncilTimelock, Core, TC_TRIBE_BALANCE),
    TransferFromCommand(Fei, TribalCouncilTimelock, FeiDAOTimelock, TC_FEI_BALANCE),
    BurnCommand(TC_FEI_BALANCE)]

  const MAINTENANCE: seq<Action> := [
    SetOracle("weth", "chainlinkStEthUsdOracleWrapper"),
    AddDeposits(["lusdHoldingPCVDeposit"]),
    RemoveDeposits([
      "aaveFeiPCVDepositWrapper",
      "compoundFeiPCVDepositWrapper",
      "lusdToDaiLensLusd",
      "lusdToDaiLensDai",
      "tribalCouncilTimelockFeiLens"]),
    UnsetSafeAddresses(["voltHoldingPCVDeposit", "gOHMHoldingPCVDeposit"])]

  function LedgerActions(cs: seq<Command>): (actions: seq<Action>)
    ensures |actions| == |cs|
  {
    seq(|cs|, i requires 0 <= i < |cs| => OnLedger(cs[i]))
  }

  const PROPOSAL: seq<Action> := LedgerActions(CLEANUP) + LedgerActions(CLAWBACK) + MAINTENANCE

  // ---------- setup and validate ----------

  /** What setup reads; the protocol's equity is what the collateralization oracle reports. */
  datatype Snapshot = Snapshot(equity: int, feiSupply: nat, coreTribe: nat, dai: nat, steth: nat)

  function SnapshotOf(l: Ledger, equity: int): Snapshot {
    Snapshot(equity, Supply(l, Fei), Balance(l, Tribe, Core),
             Balance(l, Dai, DaiHolding), Balance(l, Steth, EthLidoDeposit))
  }

  /** The expectations on the two oracles' readings. */
  predicate Plausible(equityBefore: int, equityAfter: int, stethPrice: nat) {
    && PCV_DIFF_LOWER < equityAfter - equityBefore < PCV_DIFF_UPPER
    && STETH_LOWER_PRICE < stethPrice < STETH_UPPER_PRICE
  }

  /** The expectations of validate. */
  predicate Passes(before: Snapshot, x: Chain, equity: int, stethPrice: nat) {
    var l := x.ledger;
    && Plausible(before.equity, equity, stethPrice)
    && before.feiSupply - Supply(l, Fei) == TC_FEI_BALANCE
    && Balance(l, Tribe, Core) - before.coreTribe == TC_TRIBE_BALANCE
    && Balance(l, Fei, TribalCouncilTimelock) == 0
    && Balance(l, Tribe, TribalCouncilTimelock) == 0
    && Balance(l, Fei, FeiDAOTimelock) == 0
    && Balance(l, Dai, LusdToDaiSwapper) == 0
    && Balance(l, Lusd, LusdToDaiSwapper) == 0
    && Balance(l, Weth, EthToDaiSwapper) == 0
    && Balance(l, Dai, EthToDaiSwapper) == 0
    && Balance(l, Lusd, LusdHolding) > MIN_LUSD_SWAP_LUSD
    && Balance(l, Steth, EthLidoDeposit) - before.steth > MIN_WETH_SWAP_WETH
    && Balance(l, Dai, DaiHolding) > before.dai + (MIN_LUSD_SWAP_DAI + MIN_WETH_SWAP_DAI)
    && "weth" in x.oracles && x.oracles["weth"] == "chainlinkStEthUsdOracleWrapper"
  }

  /** The proposal script: setup fills the snapshot that validate compares with. */
  class Script {
    var equityBefore: int
    var initialFeiSupply: nat
    var initialTCTribeBalance: nat
    var initialDaiBalance: nat
    var initialStethBalance: nat

    constructor () {
    }

    ghost function Taken(): Snapshot
      reads this
    {
      Snapshot(equityBefore, initialFeiSupply, initialTCTribeBalance, initialDaiBalance, initialStethBalance)
    }

    method Setup(x: Chain, equity: int)
      modifies this
      ensures Taken() == SnapshotOf(x.ledger, equity)
    {
      equityBefore := equity;
      initialFeiSupply := Supply(x.ledger, Fei);
      initialTCTribeBalance := Balance(x.ledger, Tribe, Core);
      initialDaiBalance := Balance(x.ledger, Dai, DaiHolding);
      initialStethBalance := Balance(x.ledger, Steth, EthLidoDeposit);
    }

    method Validate(x: Chain, equity: int, stethPrice: nat) returns (ok: bool)
      ensures ok == Passes(Taken(), x, equity, stethPrice)
    {
      var l := x.ledger;
      var eqDiff := equity - equityBefore;
      if eqDiff <= PCV_DIFF_LOWER || eqDiff >= PCV_DIFF_UPPER {
        return false;
      }
      var feiSupplyDiff := initialFeiSupply - Supply(l, Fei);
      if feiSupplyDiff != TC_FEI_BALANCE {
        return false;
      }
      var tcTribeBalanceDiff := Balance(l, Tribe, Core) - initialTCTribeBalance;
      if tcTribeBalanceDiff != TC_TRIBE_BALANCE {
        return false;
      }
      if Balance(l, Fei, TribalCouncilTimelock) != 0 || Balance(l, Tribe, TribalCouncilTimelock) != 0 {
        return false;
      }
      if Balance(l, Fei, FeiDAOTimelock) != 0 {
        return false;
      }
      if Balance(l, Dai, LusdToDaiSwapper) != 0 || Balance(l, Lusd, LusdToDaiSwapper) != 0 {
        return false;
      }
      if Balance(l, Weth, EthToDaiSwapper) != 0 || Balance(l, Dai, EthToDaiSwapper) != 0 {
        return false;
      }
      if Balance(l, Lusd, LusdHolding) <= MIN_LUSD_SWAP_LUSD {
        return false;
      }
      if Balance(l, Steth, EthLidoDeposit) - initialStethBalance <= MIN_WETH_SWAP_WETH {
        return false;
      }
      if Balance(l, Dai, DaiHolding) <= initialDaiBalance + (MIN_LUSD_SWAP_DAI + MIN_WETH_SWAP_DAI) {
        return false;
      }
      if "weth" !in x.oracles || x.oracles["weth"] != "chainlinkStEthUsdOracleWrapper" {
        return false;
      }
      ok := STETH_LOWER_PRICE < stethPrice < STETH_UPPER_PRICE;
    }
  }
}
