/**
 The tc_consolidate proposal (proposals/description/old/tc_consolidate.ts) as a program, its own
 setup and validate (proposals/dao/old/tc_consolidate.ts), and when the one satisfies the other.
 */
module TcConsolidate {
  import opened Bytes
  import opened Ledger
  import opened LedgerRuns

  const TC_FEI_TO_BURN: nat := 42905768215167745773610059

  const CLAWED_BACK_FEI_UPPER_BOUND: nat := 2897332829955035696312531
  const CLAWED_BACK_TRIBE_UPPER_BOUND: nat := 3068505367127310595321005

  const TC_LQTY_BALANCE: nat := 1101298805118942906652299
  const TC_IDLE_BALANCE: nat := 16014201190265555827419
  const TC_FOX_BALANCE: nat := 15316691965631380244403204

  /** Burn the existing FEI, and claw both vesting timelocks back. */
  const CLAWBACKS: seq<Command> := [
    BurnCommand(TC_FEI_TO_BURN),
    Clawback(RariInfraFeiTimelock),
    Clawback(RariInfraTribeTimelock)]

  /** Approvals for the DAO timelock, and the other assets moved out. */
  const HANDOVER: seq<Command> := [
    ApproveCommand(Fei, FeiDAOTimelock, CLAWED_BACK_FEI_UPPER_BOUND),
    ApproveCommand(Tribe, FeiDAOTimelock, CLAWED_BACK_TRIBE_UPPER_BOUND),
    TransferCommand(Idle, TribalCouncilSafe, TC_IDLE_BALANCE),
    TransferCommand(Lqty, FeiDAOTimelock, TC_LQTY_BALANCE),
    TransferCommand(Fox, FeiDAOTimelock, TC_FOX_BALANCE)]

  const CONSOLIDATION: seq<Command> := CLAWBACKS + HANDOVER

  /** The expectations of validate, given the FEI supply that setup read. */
  predicate Passes(initialFeiSupply: nat, l: Ledger) {
    && initialFeiSupply - Supply(l, Fei) == TC_FEI_TO_BURN
    && Balance(l, Fei, RariInfraFeiTimelock) == 0
    && Balance(l, Tribe, RariInfraTribeTimelock) == 0
    && Allowance(l, Fei, TribalCouncilTimelock, FeiDAOTimelock) == CLAWED_BACK_FEI_UPPER_BOUND
    && Allowance(l, Tribe, TribalCouncilTimelock, FeiDAOTimelock) == CLAWED_BACK_TRIBE_UPPER_BOUND
    && Balance(l, Idle, TribalCouncilTimelock) == 0
    && Balance(l, Idle, TribalCouncilSafe) == TC_IDLE_BALANCE
    && Balance(l, Lqty, TribalCouncilTimelock) == 0
    && Balance(l, Lqty, FeiDAOTimelock) == TC_LQTY_BALANCE
    && Balance(l, Fox, TribalCouncilTimelock) == 0
    && Balance(l, Fox, FeiDAOTimelock) == TC_FOX_BALANCE
  }

  class Script {
    var initialFeiSupply: nat

    constructor () {
    }

    method Setup(l: Ledger)
      modifies this
      ensures initialFeiSupply == Supply(l, Fei)
    {
      initialFeiSupply := Supply(l, Fei);
    }

    method Validate(l: Ledger) returns (ok: bool)
      ensures ok == Passes(initialFeiSupply, l)
    {
      var feiSupplyDiff := initialFeiSupply - Supply(l, Fei);
      if feiSupplyDiff != TC_FEI_TO_BURN {
        return false;
      }
      if Balance(l, Fei, RariInfraFeiTimelock) != 0 || Balance(l, Tribe, RariInfraTribeTimelock) != 0 {
        return false;
      }
      if Allowance(l, Fei, TribalCouncilTimelock, FeiDAOTimelock) != CLAWED_BACK_FEI_UPPER_BOUND {
        return false;
      }
      if Allowance(l, Tribe, TribalCouncilTimelock, FeiDAOTimelock) != CLAWED_BACK_TRIBE_UPPER_BOUND {
        return false;
      }
      if Balance(l, Idle, TribalCouncilTimelock) != 0 || Balance(l, Idle, TribalCouncilSafe) != TC_IDLE_BALANCE {
        return false;
      }
      if Balance(l, Lqty, TribalCouncilTimelock) != 0 || Balance(l, Lqty, FeiDAOTimelock) != TC_LQTY_BALANCE {
        return false;
      }
      ok := Balance(l, Fox, TribalCouncilTimelock) == 0 && Balance(l, Fox, FeiDAOTimelock) == TC_FOX_BALANCE;
    }
  }

  // ---------- Clawing back ----------

  /** The council's timelock may claw a token back from a lock whose beneficiary is somebody else. */
  ghost predicate Vests(env: Env, lock: Account, token: Token) {
    && lock in env.locks && env.locks[lock].token == token && env.locks[lock].admin == TribalCouncilTimelock
    && env.locks[lock].beneficiary !in
       {TribalCouncilTimelock, FeiDAOTimelock, RariInfraFeiTimelock, RariInfraTribeTimelock}
  }

  ghost predicate Stage(env: Env) {
    && env.acting == TribalCouncilTimelock
    && Vests(env, RariInfraFeiTimelock, Fei)
    && Vests(env, RariInfraTribeTimelock, Tribe)
  }

  /** What a clawback leaves to the beneficiary. */
  function Vested(env: Env, lock: Account): nat
    requires lock in env.locks
  {
    if env.locks[lock].passedCliff then env.locks[lock].available else 0
  }

  /** The beneficiary of a lock has got what was vested. */
  ghost predicate VestedPaid(env: Env, l: Ledger, r: Ledger, lock: Account, token: Token)
    requires lock in env.locks
  {
    var b := env.locks[lock].beneficiary;
    Balance(r, token, b) == Balance(l, token, b) + Vested(env, lock)
  }

  /** What a clawback leaves: the lock empty, the vested part with the beneficiary and the rest with the council. */
  ghost predicate ClawedBack(env: Env, l: Ledger, r: Ledger, lock: Account, token: Token)
    requires lock in env.locks
  {
    var b := env.locks[lock].beneficiary;
    && Balance(r, token, lock) == 0
    && VestedPaid(env, l, r, lock, token)
    && Balance(r, token, TribalCouncilTimelock) ==
       Balance(l, token, TribalCouncilTimelock) + Balance(l, token, lock) - Vested(env, lock)
    && Same(l, r, {token}, {lock, b, TribalCouncilTimelock})
  }

  lemma ClawbackEffect(env: Env, l: Ledger, lock: Account, token: Token)
    requires env.acting == TribalCouncilTimelock && Vests(env, lock, token)
             && lock in {RariInfraFeiTimelock, RariInfraTribeTimelock}
    ensures var r := ClawbackStep(env, l, lock);
            && (r.Some? <==> Vested(env, lock) <= Balance(l, token, lock))
            && (r.Some? ==> ClawedBack(env, l, r.value, lock, token))
  {
    var k := env.locks[lock];
    TransferEffect(l, token, lock, k.beneficiary, Vested(env, lock));
    var released := Transfer(l, token, lock, k.beneficiary, Vested(env, lock));
    if released.Some? {
      TransferEffect(released.value, token, lock, TribalCouncilTimelock, Balance(released.value, token, lock));
    }
  }

  /** The FEI the council's timelock is left with. */
  function FeiLeft(env: Env, l: Ledger): int
    requires Stage(env)
  {
    Balance(l, Fei, TribalCouncilTimelock) - TC_FEI_TO_BURN
    + Balance(l, Fei, RariInfraFeiTimelock) - Vested(env, RariInfraFeiTimelock)
  }

  function TribeLeft(env: Env, l: Ledger): int
    requires Stage(env)
  {
    Balance(l, Tribe, TribalCouncilTimelock) + Balance(l, Tribe, RariInfraTribeTimelock)
    - Vested(env, RariInfraTribeTimelock)
  }

  ghost predicate CanBurnAndClawBack(env: Env, l: Ledger)
    requires Stage(env)
  {
    && TC_FEI_TO_BURN <= Balance(l, Fei, TribalCouncilTimelock)
    && TC_FEI_TO_BURN <= Supply(l, Fei)
    && Vested(env, RariInfraFeiTimelock) <= Balance(l, Fei, RariInfraFeiTimelock)
    && Vested(env, RariInfraTribeTimelock) <= Balance(l, Tribe, RariInfraTribeTimelock)
  }

  ghost predicate BurntAndClawedBackTo(env: Env, l: Ledger, r: Ledger)
    requires Stage(env)
  {
    && Balance(r, Fei, TribalCouncilTimelock) == FeiLeft(env, l)
    && Balance(r, Tribe, TribalCouncilTimelock) == TribeLeft(env, l)
    && Balance(r, Fei, RariInfraFeiTimelock) == 0
    && Balance(r, Tribe, RariInfraTribeTimelock) == 0
    && Balance(r, Fei, FeiDAOTimelock) == Balance(l, Fei, FeiDAOTimelock)
    && VestedPaid(env, l, r, RariInfraFeiTimelock, Fei) && VestedPaid(env, l, r, RariInfraTribeTimelock, Tribe)
    && Supply(r, Fei) == Supply(l, Fei) - TC_FEI_TO_BURN
    && (forall t: Token, a: Account :: t !in {Fei, Tribe} ==> Balance(r, t, a) == Balance(l, t, a))
  }

  lemma BothLocksEffect(env: Env, l: Ledger)
    requires Stage(env)
    ensures var r := Run(env, l, [CLAWBACKS[1], CLAWBACKS[2]]);
            && (r.Some? <==>
                  && Vested(env, RariInfraFeiTimelock) <= Balance(l, Fei, RariInfraFeiTimelock)
                  && Vested(env, RariInfraTribeTimelock) <= Balance(l, Tribe, RariInfraTribeTimelock))
            && (r.Some? ==> BothClawedBackTo(env, l, r.value))
  {
    RunTwo(env, l, CLAWBACKS[1], CLAWBACKS[2]);
    ClawbackEffect(env, l, RariInfraFeiTimelock, Fei);
    var first := ClawbackStep(env, l, RariInfraFeiTimelock);
    if first.Some? {
      ClawbackEffect(env, first.value, RariInfraTribeTimelock, Tribe);
      var second := ClawbackStep(env, first.value, RariInfraTribeTimelock);
      if second.Some? {
        BothLocksWhole(env, l, first.value, second.value);
      }
    }
  }

  lemma BothLocksWhole(env: Env, l: Ledger, m: Ledger, r: Ledger)
    requires Stage(env)
    requires ClawedBack(env, l, m, RariInfraFeiTimelock, Fei) && ClawedBack(env, m, r, RariInfraTribeTimelock, Tribe)
    ensures BothClawedBackTo(env, l, r)
  {
  }

  ghost predicate BothClawedBackTo(env: Env, l: Ledger, r: Ledger)
    requires Stage(env)
  {
    && Balance(r, Fei, TribalCouncilTimelock) == FeiLeft(env, l) + TC_FEI_TO_BURN
    && Balance(r, Tribe, TribalCouncilTimelock) == TribeLeft(env, l)
    && Balance(r, Fei, RariInfraFeiTimelock) == 0
    && Balance(r, Tribe, RariInfraTribeTimelock) == 0
    && Balance(r, Fei, FeiDAOTimelock) == Balance(l, Fei, FeiDAOTimelock)
    && VestedPaid(env, l, r, RariInfraFeiTimelock, Fei) && VestedPaid(env, l, r, RariInfraTribeTimelock, Tribe)
    && r.supplies == l.supplies
    && (forall t: Token, a: Account :: t !in {Fei, Tribe} ==> Balance(r, t, a) == Balance(l, t, a))
  }

  lemma ClawbacksEffect(env: Env, l: Ledger)
    requires Stage(env)
    ensures var r := Run(env, l, CLAWBACKS);
            && (r.Some? <==> CanBurnAndClawBack(env, l))
            && (r.Some? ==> BurntAndClawedBackTo(env, l, r.value))
  {
    assert CLAWBACKS == [CLAWBACKS[0]] + [CLAWBACKS[1], CLAWBACKS[2]];
    RunConcat(env, l, [CLAWBACKS[0]], [CLAWBACKS[1], CLAWBACKS[2]]);
    RunOne(env, l, CLAWBACKS[0]);
    var burnt := BurnFei(l, TribalCouncilTimelock, TC_FEI_TO_BURN);
    if burnt.Some? {
      BurnEffect(l, TribalCouncilTimelock, TC_FEI_TO_BURN);
      BothLocksEffect(env, burnt.value);
    }
  }

  // ---------- Handing over ----------

  ghost predicate CanHandOver(l: Ledger) {
    && TC_IDLE_BALANCE <= Balance(l, Idle, TribalCouncilTimelock)
    && TC_LQTY_BALANCE <= Balance(l, Lqty, TribalCouncilTimelock)
    && TC_FOX_BALANCE <= Balance(l, Fox, TribalCouncilTimelock)
  }

  ghost predicate Paid(l: Ledger, r: Ledger, t: Token, to: Account, amount: nat) {
    && Balance(r, t, TribalCouncilTimelock) == Balance(l, t, TribalCouncilTimelock) - amount
    && Balance(r, t, to) == Balance(l, t, to) + amount
  }

  ghost predicate HandedOverTo(l: Ledger, r: Ledger) {
    && Allowance(r, Fei, TribalCouncilTimelock, FeiDAOTimelock) == CLAWED_BACK_FEI_UPPER_BOUND
    && Allowance(r, Tribe, TribalCouncilTimelock, FeiDAOTimelock) == CLAWED_BACK_TRIBE_UPPER_BOUND
    && Paid(l, r, Idle, TribalCouncilSafe, TC_IDLE_BALANCE)
    && Paid(l, r, Lqty, FeiDAOTimelock, TC_LQTY_BALANCE)
    && Paid(l, r, Fox, FeiDAOTimelock, TC_FOX_BALANCE)
    && (forall t: Token, a: Account :: t !in {Idle, Lqty, Fox} ==> Balance(r, t, a) == Balance(l, t, a))
    && r.supplies == l.supplies
  }

  lemma ApprovalsEffect(env: Env, l: Ledger)
    requires env.acting == TribalCouncilTimelock
    ensures var r := Run(env, l, [HANDOVER[0], HANDOVER[1]]);
            && r.Some? && r.value == l.(allowances := r.value.allowances)
            && Allowance(r.value, Fei, TribalCouncilTimelock, FeiDAOTimelock) == CLAWED_BACK_FEI_UPPER_BOUND
            && Allowance(r.value, Tribe, TribalCouncilTimelock, FeiDAOTimelock) == CLAWED_BACK_TRIBE_UPPER_BOUND
  {
    RunTwo(env, l, HANDOVER[0], HANDOVER[1]);
  }

  ghost predicate PaymentsTo(l: Ledger, r: Ledger) {
    && Paid(l, r, Idle, TribalCouncilSafe, TC_IDLE_BALANCE)
    && Paid(l, r, Lqty, FeiDAOTimelock, TC_LQTY_BALANCE)
    && Paid(l, r, Fox, FeiDAOTimelock, TC_FOX_BALANCE)
    && Same(l, r, {Idle, Lqty, Fox}, {TribalCouncilTimelock, TribalCouncilSafe, FeiDAOTimelock})
  }

  lemma PaymentsEffect(env: Env, l: Ledger)
    requires env.acting == TribalCouncilTimelock
    ensures var r := Run(env, l, [HANDOVER[2]] + [HANDOVER[3], HANDOVER[4]]);
            && (r.Some? <==> CanHandOver(l))
            && (r.Some? ==> PaymentsTo(l, r.value))
  {
    RunConcat(env, l, [HANDOVER[2]], [HANDOVER[3], HANDOVER[4]]);
    RunOne(env, l, HANDOVER[2]);
    TransferEffect(l, Idle, TribalCouncilTimelock, TribalCouncilSafe, TC_IDLE_BALANCE);
    var first := Transfer(l, Idle, TribalCouncilTimelock, TribalCouncilSafe, TC_IDLE_BALANCE);
    if first.Some? {
      RunTwo(env, first.value, HANDOVER[3], HANDOVER[4]);
      TransferEffect(first.value, Lqty, TribalCouncilTimelock, FeiDAOTimelock, TC_LQTY_BALANCE);
      var second := Transfer(first.value, Lqty, TribalCouncilTimelock, FeiDAOTimelock, TC_LQTY_BALANCE);
      if second.Some? {
        TransferEffect(second.value, Fox, TribalCouncilTimelock, FeiDAOTimelock, TC_FOX_BALANCE);
      }
    }
  }

  lemma HandoverEffect(env: Env, l: Ledger)
    requires env.acting == TribalCouncilTimelock
    ensures var r := Run(env, l, HANDOVER);
            && (r.Some? <==> CanHandOver(l))
            && (r.Some? ==> HandedOverTo(l, r.value))
  {
    assert HANDOVER == [HANDOVER[0], HANDOVER[1]] + ([HANDOVER[2]] + [HANDOVER[3], HANDOVER[4]]);
    RunConcat(env, l, [HANDOVER[0], HANDOVER[1]], [HANDOVER[2]] + [HANDOVER[3], HANDOVER[4]]);
    ApprovalsEffect(env, l);
    PaymentsEffect(env, Run(env, l, [HANDOVER[0], HANDOVER[1]]).value);
  }

  // ---------- The whole proposal ----------

  /** The eight commands go through from here. */
  ghost predicate CanConsolidate(env: Env, l: Ledger)
    requires Stage(env)
  {
    CanBurnAndClawBack(env, l) && CanHandOver(l)
  }

  /** Where they lead. */
  ghost predicate ConsolidatedTo(env: Env, l: Ledger, r: Ledger)
    requires Stage(env)
  {
    && Balance(r, Fei, TribalCouncilTimelock) == FeiLeft(env, l)
    && Balance(r, Tribe, TribalCouncilTimelock) == TribeLeft(env, l)
    && Balance(r, Fei, RariInfraFeiTimelock) == 0
    && Balance(r, Tribe, RariInfraTribeTimelock) == 0
    && Balance(r, Fei, FeiDAOTimelock) == Balance(l, Fei, FeiDAOTimelock)
    && VestedPaid(env, l, r, RariInfraFeiTimelock, Fei) && VestedPaid(env, l, r, RariInfraTribeTimelock, Tribe)
    && Supply(r, Fei) == Supply(l, Fei) - TC_FEI_TO_BURN
    && Allowance(r, Fei, TribalCouncilTimelock, FeiDAOTimelock) == CLAWED_BACK_FEI_UPPER_BOUND
    && Allowance(r, Tribe, TribalCouncilTimelock, FeiDAOTimelock) == CLAWED_BACK_TRIBE_UPPER_BOUND
    && Paid(l, r, Idle, TribalCouncilSafe, TC_IDLE_BALANCE)
    && Paid(l, r, Lqty, FeiDAOTimelock, TC_LQTY_BALANCE)
    && Paid(l, r, Fox, FeiDAOTimelock, TC_FOX_BALANCE)
    && (forall t: Token, a: Account :: t !in {Fei, Tribe, Idle, Lqty, Fox} ==> Balance(r, t, a) == Balance(l, t, a))
  }

  lemma ConsolidationParts(env: Env, l: Ledger, m: Ledger, r: Ledger)
    requires Stage(env) && BurntAndClawedBackTo(env, l, m) && HandedOverTo(m, r)
    ensures ConsolidatedTo(env, l, r)
  {
  }

  lemma ConsolidationEffect(env: Env, l: Ledger)
    requires Stage(env)
    ensures var r := Run(env, l, CONSOLIDATION);
            && (r.Some? <==> CanConsolidate(env, l))
            && (r.Some? ==> ConsolidatedTo(env, l, r.value))
  {
    RunConcat(env, l, CLAWBACKS, HANDOVER);
    ClawbacksEffect(env, l);
    var clawed := Run(env, l, CLAWBACKS);
    if clawed.Some? {
      HandoverEffect(env, clawed.value);
      var handed := Run(env, clawed.value, HANDOVER);
      if handed.Some? {
        ConsolidationParts(env, l, clawed.value, handed.value);
      }
    }
  }

  /** Just the listed assets, and none of them at their destinations yet. */
  ghost predicate ExactAssets(l: Ledger) {
    && Balance(l, Idle, TribalCouncilTimelock) == TC_IDLE_BALANCE && Balance(l, Idle, TribalCouncilSafe) == 0
    && Balance(l, Lqty, TribalCouncilTimelock) == TC_LQTY_BALANCE && Balance(l, Lqty, FeiDAOTimelock) == 0
    && Balance(l, Fox, TribalCouncilTimelock) == TC_FOX_BALANCE && Balance(l, Fox, FeiDAOTimelock) == 0
  }

  /** The proposal runs and meets its own validate exactly from exact assets, enough FEI and covered vestings. */
  lemma ValidatedIffExact(env: Env, l: Ledger)
    requires Stage(env)
    ensures var r := Run(env, l, CONSOLIDATION);
            r.Some? && Passes(Supply(l, Fei), r.value) <==> CanBurnAndClawBack(env, l) && ExactAssets(l)
  {
    ConsolidationEffect(env, l);
  }
}
