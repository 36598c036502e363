/**
 SigmaProposal.simulate (scripts/utils/constructProposal.ts): queue every action in one block,
 jump to the eta, execute the actions one block each, and check the receipts.
 */
module Sigma {
  import opened Bytes
  import opened Abi
  import opened Calls
  import opened Calldata
  import opened Devnet
  import Hex
  import opened Proposals
  import opened Timelock

  datatype Ending =
    | Completed
    | AlreadySimulated
    | NoGovernor
    | TimeInThePast
    | ActionFailed(index: nat)

  datatype Receipt = Receipt(tx: Tx, status: nat)

  // ---------- Specification ----------

  function TxsOf(actions: seq<Action>, eta: nat): (txs: seq<Tx>)
    ensures |txs| == |actions|
  {
    seq(|actions|, i requires 0 <= i < |actions| =>
      Tx(actions[i].target, actions[i].value, actions[i].signature, actions[i].args, eta))
  }

  /** The chain as the execute loop finds it. */
  datatype Bench<!W> = Bench(env: Env<W>, rules: Rules, sender: address, queued: set<word>, clock: Clock, world: W)

  /** Action i goes through, given that those before it did. */
  ghost predicate Runs<W>(b: Bench<W>, txs: seq<Tx>, i: nat)
    requires i < |txs|
  {
    && MayExecute(b.env.keccak, b.rules, b.queued - Slots(b.env.keccak, txs[..i]), b.sender, txs[i],
                  Ticks(b.env.gap, b.clock, i + 1).now)
    && Fold(b.env.step, b.world, TxCalls(b.env.keccak, txs[..i + 1])).Some?
  }

  /** The first action from i on that does not go through. */
  ghost function FirstBlocked<W>(b: Bench<W>, txs: seq<Tx>, i: nat): (k: nat)
    requires i <= |txs|
    ensures i <= k <= |txs|
    ensures forall j | i <= j < k :: Runs(b, txs, j)
    ensures k < |txs| ==> !Runs(b, txs, k)
    decreases |txs| - i
  {
    if i < |txs| && Runs(b, txs, i) then FirstBlocked(b, txs, i + 1) else i
  }

  /** The eta of a simulation started at a given time. */
  function Eta(rules: Rules, clock: Clock): nat {
    rules.delay + clock.now + 50
  }

  /** The slots queued once the block with the queue calls is mined. */
  ghost function QueuedAfter<W>(b: Bench<W>, txs: seq<Tx>): set<word> {
    if MayQueue(b.rules, b.sender, Eta(b.rules, b.clock), Tick(b.env.gap, b.clock).now)
    then b.queued + Slots(b.env.keccak, txs) else b.queued
  }

  /** The bench that queueing and the time jump leave, or None when the jump throws. */
  ghost function Prepare<W>(b: Bench<W>, txs: seq<Tx>): Option<Bench<W>> {
    var eta := Eta(b.rules, b.clock);
    var mined := Tick(b.env.gap, b.clock);
    match IncreaseTo(b.env.gap, mined, eta)
    case None => None
    case Some(start) => Some(b.(clock := start, queued := QueuedAfter(b, txs)))
  }

  /** The execute loop gets through the first k actions, exactly as far as they run. */
  ghost predicate Executes<W>(b: Bench<W>, txs: seq<Tx>, k: nat, queued: set<word>, world: W) {
    && k == FirstBlocked(b, txs, 0)
    && Some(world) == Fold(b.env.step, b.world, TxCalls(b.env.keccak, txs[..k]))
    && queued == b.queued - Slots(b.env.keccak, txs[..k])
  }

  /** How a simulation from a bench ends, and what it leaves of the queue and the contracts. */
  ghost predicate Ends<W>(b: Bench<W>, txs: seq<Tx>, r: Ending, queued: set<word>, world: W) {
    match Prepare(b, txs)
    case None => r == TimeInThePast && world == b.world && queued == QueuedAfter(b, txs)
    case Some(start) =>
      var k := FirstBlocked(start, txs, 0);
      r == (if k < |txs| then ActionFailed(k) else Completed) && Executes(start, txs, k, queued, world)
  }

  // ---------- The driver ----------

  ghost function BenchOf<W>(timelock: Timelock<W>, sender: address): Bench<W>
    reads timelock, timelock.net
  {
    Bench(timelock.net.env, timelock.rules, sender, timelock.queued, timelock.net.clock, timelock.net.world)
  }

  /** Sends one queue call an action; with automining off they all land in the next block. */
  method QueueAll<W>(timelock: Timelock<W>, sender: address, txs: seq<Tx>, ghost eta: nat)
    requires forall i | 0 <= i < |txs| :: txs[i].eta == eta
    modifies timelock`queued, timelock.net`clock
    ensures timelock.net.clock == Tick(timelock.net.env.gap, old(timelock.net.clock))
    ensures timelock.queued ==
              if MayQueue(timelock.rules, sender, eta, timelock.net.clock.now)
              then old(timelock.queued) + Slots(timelock.net.env.keccak, txs) else old(timelock.queued)
  {
    var mempool: seq<Tx> := [];
    for i := 0 to |txs|
      invariant mempool == txs[..i]
    {
      mempool := mempool + [txs[i]];
    }
    timelock.net.MineBlock();
    for i := 0 to |mempool|
      invariant timelock.net.clock == Tick(timelock.net.env.gap, old(timelock.net.clock))
      invariant timelock.queued ==
                if MayQueue(timelock.rules, sender, eta, timelock.net.clock.now)
                then old(timelock.queued) + Slots(timelock.net.env.keccak, txs[..i]) else old(timelock.queued)
    {
      var ok := timelock.QueueTransaction(sender, mempool[i]);
      assert Slots(timelock.net.env.keccak, txs[..i + 1]) ==
             Slots(timelock.net.env.keccak, txs[..i]) + {TxHash(timelock.net.env.keccak, txs[i])};
    }
    assert txs[..|txs|] == txs;
  }

  /** The first i actions of a bench have been executed. */
  ghost predicate Progress<W>(timelock: Timelock<W>, b: Bench<W>, txs: seq<Tx>, i: nat)
    requires i <= |txs|
    reads timelock, timelock.net
  {
    && b.env == timelock.net.env && b.rules == timelock.rules
    && Some(timelock.net.world) == Fold(b.env.step, b.world, TxCalls(b.env.keccak, txs[..i]))
    && timelock.queued == b.queued - Slots(b.env.keccak, txs[..i])
  }

  method ExecuteOne<W>(
    timelock: Timelock<W>, ghost b: Bench<W>, sender: address, ghost txs: seq<Tx>, ghost i: nat, tx: Tx)
    returns (ok: bool)
    requires i < |txs| && tx == txs[i] && sender == b.sender
    requires Progress(timelock, b, txs, i) && timelock.net.clock == Ticks(b.env.gap, b.clock, i)
    modifies timelock`queued, timelock.net`clock, timelock.net`world
    ensures ok == Runs(b, txs, i)
    ensures Progress(timelock, b, txs, if ok then i + 1 else i)
            && timelock.net.clock == Ticks(b.env.gap, b.clock, i + 1)
  {
    NextAction(b, txs, i, timelock.queued, timelock.net.world);
    timelock.net.MineBlock();
    ok := timelock.ExecuteTransaction(sender, tx);
  }

  /** What one action tests and leaves, in terms of the state its predecessors left. */
  lemma NextAction<W>(b: Bench<W>, txs: seq<Tx>, i: nat, queued: set<word>, w: W)
    requires i < |txs|
    requires queued == b.queued - Slots(b.env.keccak, txs[..i])
    requires Some(w) == Fold(b.env.step, b.world, TxCalls(b.env.keccak, txs[..i]))
    ensures var now := Tick(b.env.gap, Ticks(b.env.gap, b.clock, i)).now;
            Runs(b, txs, i) <==> (&& MayExecute(b.env.keccak, b.rules, queued, b.sender, txs[i], now)
                                  && b.env.step(w, TxCall(b.env.keccak, txs[i])).Some?)
    ensures queued - {TxHash(b.env.keccak, txs[i])} == b.queued - Slots(b.env.keccak, txs[..i + 1])
    ensures Fold(b.env.step, b.world, TxCalls(b.env.keccak, txs[..i + 1])) ==
            b.env.step(w, TxCall(b.env.keccak, txs[i]))
  {
    OneMore(b, txs, i, w);
  }

  /** Executes up to the first action that does not go through; receipts are those before it. */
  method ExecuteAll<W>(timelock: Timelock<W>, sender: address, txs: seq<Tx>) returns (receipts: seq<Receipt>)
    modifies timelock`queued, timelock.net`clock, timelock.net`world
    ensures |receipts| <= |txs| && forall j | 0 <= j < |receipts| :: receipts[j] == Receipt(txs[j], 1)
    ensures Executes(old(BenchOf(timelock, sender)), txs, |receipts|, timelock.queued, timelock.net.world)
  {
    ghost var b := BenchOf(timelock, sender);
    receipts := [];
    for i := 0 to |txs|
      invariant FirstBlocked(b, txs, 0) == FirstBlocked(b, txs, i)
      invariant |receipts| == i && forall j | 0 <= j < i :: receipts[j] == Receipt(txs[j], 1)
      invariant Progress(timelock, b, txs, i) && timelock.net.clock == Ticks(b.env.gap, b.clock, i)
    {
      var ok := ExecuteOne(timelock, b, sender, txs, i, txs[i]);
      if !ok {
        return;
      }
      receipts := receipts + [Receipt(txs[i], 1)];
    }
  }

  lemma OneMore<W>(b: Bench<W>, txs: seq<Tx>, i: nat, w: W)
    requires i < |txs|
    requires Some(w) == Fold(b.env.step, b.world, TxCalls(b.env.keccak, txs[..i]))
    ensures Slots(b.env.keccak, txs[..i + 1]) == Slots(b.env.keccak, txs[..i]) + {TxHash(b.env.keccak, txs[i])}
    ensures Fold(b.env.step, b.world, TxCalls(b.env.keccak, txs[..i + 1])) ==
            b.env.step(w, TxCall(b.env.keccak, txs[i]))
  {
    var calls := TxCalls(b.env.keccak, txs);
    assert TxCalls(b.env.keccak, txs[..i]) == calls[..i];
    assert TxCalls(b.env.keccak, txs[..i + 1]) == calls[..i + 1];
    FoldNext(b.env.step, b.world, calls, i);
    OneMoreSlot(b.env.keccak, txs, i);
  }

  lemma OneMoreSlot(keccak: Keccak, txs: seq<Tx>, i: nat)
    requires i < |txs|
    ensures Slots(keccak, txs[..i + 1]) == Slots(keccak, txs[..i]) + {TxHash(keccak, txs[i])}
  {
    assert txs[..i + 1] == txs[..i] + [txs[i]];
  }

  method Simulate<W>(
    p: SigmaProposal, timelock: Timelock<W>, governor: Option<address>, force: bool)
    returns (r: Ending)
    requires p.Valid()
    modifies p`internalState, timelock`queued, timelock.net`clock, timelock.net`world
    ensures p.Valid() && p.Actions() == old(p.Actions())
    ensures p.internalState == if r == Completed then Simulated else old(p.internalState)
    ensures old(p.internalState) != Unsubmitted && !force <==> r == AlreadySimulated
    ensures r == NoGovernor <==> r != AlreadySimulated && governor.None?
    ensures r == AlreadySimulated || r == NoGovernor ==> unchanged(timelock) && unchanged(timelock.net)
    ensures r != AlreadySimulated && r != NoGovernor ==>
      var b := old(BenchOf(timelock, governor.value));
      Ends(b, TxsOf(p.Actions(), Eta(b.rules, b.clock)), r, timelock.queued, timelock.net.world)
  {
    if p.internalState != Unsubmitted && !force {
      return AlreadySimulated;
    }
    if governor.None? {
      return NoGovernor;
    }
    var eta := Eta(timelock.rules, timelock.net.clock);
    var txs := EtaTxs(p, eta);
    r := QueueAndExecute(timelock, governor.value, txs);
    if r == Completed {
      ghost var actions := p.Actions();
      p.internalState := Simulated;
      assert p.Actions() == actions;
    }
  }

  /** _simulate, once the actions are at hand. */
  method QueueAndExecute<W>(timelock: Timelock<W>, sender: address, txs: seq<Tx>) returns (r: Ending)
    requires forall i | 0 <= i < |txs| :: txs[i].eta == Eta(timelock.rules, timelock.net.clock)
    modifies timelock`queued, timelock.net`clock, timelock.net`world
    ensures r != AlreadySimulated && r != NoGovernor
    ensures Ends(old(BenchOf(timelock, sender)), txs, r, timelock.queued, timelock.net.world)
  {
    var eta := Eta(timelock.rules, timelock.net.clock);
    QueueAll(timelock, sender, txs, eta);
    var jumped := timelock.net.IncreaseTimeTo(eta);
    if !jumped {
      return TimeInThePast;
    }
    assert Prepare(old(BenchOf(timelock, sender)), txs) == Some(BenchOf(timelock, sender));
    var receipts := ExecuteAll(timelock, sender, txs);
    if |receipts| < |txs| {
      return ActionFailed(|receipts|);
    }
    timelock.net.MineBlock();
    timelock.net.MineBlock();
    timelock.net.MineBlock();
    r := CheckReceipts(receipts);
  }

  method EtaTxs(p: SigmaProposal, eta: nat) returns (txs: seq<Tx>)
    requires p.Valid()
    ensures txs == TxsOf(p.Actions(), eta)
  {
    txs := [];
    for i := 0 to |p.targets|
      invariant txs == TxsOf(p.Actions()[..i], eta)
    {
      txs := txs + [Tx(p.targets[i], p.values[i], p.signatures[i], Hex.Arrayify(p.calldatas[i]).value, eta)];
    }
    assert p.Actions()[..|p.targets|] == p.Actions();
  }

  /** Names the first receipt whose status is not 1. */
  method CheckReceipts(receipts: seq<Receipt>) returns (r: Ending)
    ensures r == Completed <==> forall j | 0 <= j < |receipts| :: receipts[j].status == 1
    ensures r != Completed ==>
              && r.ActionFailed? && r.index < |receipts| && receipts[r.index].status != 1
              && forall j | 0 <= j < r.index :: receipts[j].status == 1
  {
    for i := 0 to |receipts|
      invariant forall j | 0 <= j < i :: receipts[j].status == 1
    {
      if receipts[i].status != 1 {
        return ActionFailed(i);
      }
    }
    r := Completed;
  }

  // ---------- When a simulation completes ----------

  lemma {:induction false} AllRunIff<W>(b: Bench<W>, txs: seq<Tx>, eta: nat)
    requires forall i | 0 <= i < |txs| :: txs[i].eta == eta
    requires |txs| > 0
    ensures FirstBlocked(b, txs, 0) == |txs| <==>
              && b.sender == b.rules.admin && !b.rules.paused
              && Slots(b.env.keccak, txs) <= b.queued && DistinctSlots(b.env.keccak, txs)
              && eta <= Ticks(b.env.gap, b.clock, 1).now
              && Ticks(b.env.gap, b.clock, |txs|).now <= eta + GRACE_PERIOD
              && Fold(b.env.step, b.world, TxCalls(b.env.keccak, txs)).Some?
  {
    var n := |txs|;
    assert txs[..n] == txs;
    if FirstBlocked(b, txs, 0) == n {
      assert Runs(b, txs, 0) && Runs(b, txs, n - 1);
      forall i | 0 <= i < n ensures TxHash(b.env.keccak, txs[i]) in b.queued {
        assert Runs(b, txs, i);
      }
      forall i, j | 0 <= i < j < n ensures TxHash(b.env.keccak, txs[i]) != TxHash(b.env.keccak, txs[j]) {
        assert Runs(b, txs, j) && txs[..j][i] == txs[i];
      }
    }
    if Slots(b.env.keccak, txs) <= b.queued && DistinctSlots(b.env.keccak, txs)
       && b.sender == b.rules.admin && !b.rules.paused
       && eta <= Ticks(b.env.gap, b.clock, 1).now && Ticks(b.env.gap, b.clock, n).now <= eta + GRACE_PERIOD
       && Fold(b.env.step, b.world, TxCalls(b.env.keccak, txs)).Some? {
      forall i | 0 <= i < n ensures Runs(b, txs, i) {
        TicksMonotone(b.env.gap, b.clock, 1, i + 1);
        TicksMonotone(b.env.gap, b.clock, i + 1, n);
        FoldPrefix(b.env.step, b.world, TxCalls(b.env.keccak, txs), i + 1);
        assert TxCalls(b.env.keccak, txs)[..i + 1] == TxCalls(b.env.keccak, txs[..i + 1]);
        assert TxHash(b.env.keccak, txs[i]) in Slots(b.env.keccak, txs);
      }
    }
  }

  /** When nothing but the calls can fail, the run stops exactly at the first call that reverts. */
  lemma {:induction false} StopsAtFirstRevert<W>(b: Bench<W>, txs: seq<Tx>, eta: nat)
    requires forall i | 0 <= i < |txs| :: txs[i].eta == eta
    requires b.sender == b.rules.admin && !b.rules.paused
    requires Slots(b.env.keccak, txs) <= b.queued && DistinctSlots(b.env.keccak, txs)
    requires eta <= b.clock.now && Ticks(b.env.gap, b.clock, |txs|).now <= eta + GRACE_PERIOD
    ensures var k := FirstBlocked(b, txs, 0);
            var calls := TxCalls(b.env.keccak, txs);
            && Fold(b.env.step, b.world, calls[..k]).Some?
            && (k < |txs| ==> Fold(b.env.step, b.world, calls[..k + 1]).None?)
  {
    var k := FirstBlocked(b, txs, 0);
    var calls := TxCalls(b.env.keccak, txs);
    if k > 0 {
      assert Runs(b, txs, k - 1) && calls[..k] == TxCalls(b.env.keccak, txs[..k]);
    }
    if k < |txs| {
      TicksMonotone(b.env.gap, b.clock, 0, k + 1);
      TicksMonotone(b.env.gap, b.clock, k + 1, |txs|);
      assert TxHash(b.env.keccak, txs[k]) in Slots(b.env.keccak, txs);
      assert calls[..k + 1] == TxCalls(b.env.keccak, txs[..k + 1]);
    }
  }

  /**
   When caller, window and calls are good, the run stops exactly at the first action whose slot is
   not queued, or was consumed by an earlier action.
   */
  lemma {:induction false} StopsAtFirstMissingSlot<W>(b: Bench<W>, txs: seq<Tx>, eta: nat)
    requires forall i | 0 <= i < |txs| :: txs[i].eta == eta
    requires b.sender == b.rules.admin && !b.rules.paused
    requires eta <= b.clock.now && Ticks(b.env.gap, b.clock, |txs|).now <= eta + GRACE_PERIOD
    requires Fold(b.env.step, b.world, TxCalls(b.env.keccak, txs)).Some?
    ensures var k := FirstBlocked(b, txs, 0);
            && (forall i | 0 <= i < k :: HasOwnSlot(b, txs, i))
            && (k < |txs| ==> !HasOwnSlot(b, txs, k))
  {
    var k := FirstBlocked(b, txs, 0);
    forall i | 0 <= i < |txs|
      ensures Runs(b, txs, i) <==> HasOwnSlot(b, txs, i)
    {
      RunsIffOwnSlot(b, txs, eta, i);
    }
  }

  /** An action's slot is queued, and no earlier action's. */
  ghost predicate HasOwnSlot<W>(b: Bench<W>, txs: seq<Tx>, i: nat)
    requires i < |txs|
  {
    && TxHash(b.env.keccak, txs[i]) in b.queued
    && forall j | 0 <= j < i :: TxHash(b.env.keccak, txs[j]) != TxHash(b.env.keccak, txs[i])
  }

  lemma {:induction false} RunsIffOwnSlot<W>(b: Bench<W>, txs: seq<Tx>, eta: nat, i: nat)
    requires i < |txs| && txs[i].eta == eta
    requires b.sender == b.rules.admin && !b.rules.paused
    requires eta <= b.clock.now && Ticks(b.env.gap, b.clock, |txs|).now <= eta + GRACE_PERIOD
    requires Fold(b.env.step, b.world, TxCalls(b.env.keccak, txs)).Some?
    ensures Runs(b, txs, i) <==> HasOwnSlot(b, txs, i)
  {
    TicksMonotone(b.env.gap, b.clock, 0, i + 1);
    TicksMonotone(b.env.gap, b.clock, i + 1, |txs|);
    FoldPrefix(b.env.step, b.world, TxCalls(b.env.keccak, txs), i + 1);
    assert TxCalls(b.env.keccak, txs)[..i + 1] == TxCalls(b.env.keccak, txs[..i + 1]);
    SlotsBefore(b.env.keccak, txs, i);
  }

  lemma {:induction false} SlotsBefore(keccak: Keccak, txs: seq<Tx>, i: nat)
    requires i < |txs|
    ensures TxHash(keccak, txs[i]) in Slots(keccak, txs[..i]) <==>
              exists j | 0 <= j < i :: TxHash(keccak, txs[j]) == TxHash(keccak, txs[i])
  {
    assert forall j | 0 <= j < i :: txs[..i][j] == txs[j];
  }

  lemma JumpReachesEta(gap: Gap, c: Clock, eta: nat)
    requires c.now <= eta
    ensures eta < IncreaseTo(gap, c, eta).value.now <= eta + 1 + gap(c.height)
  {
  }

  /**
   A simulation completes exactly when its queue block comes in time (or everything was queued
   already), the caller is the timelock's admin, no two actions share a slot, the last execute
   block is within the grace period, and every call succeeds.
   */
  lemma SimulationCompletesIff<W>(b: Bench<W>, actions: seq<Action>, r: Ending, queued: set<word>, world: W)
    requires Ends(b, TxsOf(actions, Eta(b.rules, b.clock)), r, queued, world)
    ensures var eta := Eta(b.rules, b.clock);
            var txs := TxsOf(actions, eta);
            var mined := Tick(b.env.gap, b.clock);
            r == Completed <==>
              && mined.now <= eta
              && (actions != [] ==>
                    && b.sender == b.rules.admin && !b.rules.paused
                    && (mined.now <= b.clock.now + 50 || Slots(b.env.keccak, txs) <= b.queued)
                    && DistinctSlots(b.env.keccak, txs)
                    && Ticks(b.env.gap, IncreaseTo(b.env.gap, mined, eta).value, |txs|).now <= eta + 14 * 24 * 60 * 60
                    && Fold(b.env.step, b.world, TxCalls(b.env.keccak, txs)).Some?)
  {
    var eta := Eta(b.rules, b.clock);
    var txs := TxsOf(actions, eta);
    var mined := Tick(b.env.gap, b.clock);
    if mined.now <= eta {
      JumpReachesEta(b.env.gap, mined, eta);
      var start := Prepare(b, txs).value;
      if actions != [] {
        AllRunIff(start, txs, eta);
        assert Slots(b.env.keccak, txs) <= b.queued + Slots(b.env.keccak, txs);
      }
    }
  }

  /** What a completed simulation leaves: the calls' joint effect, and none of its slots queued. */
  lemma CompletedSimulation<W>(b: Bench<W>, txs: seq<Tx>, r: Ending, queued: set<word>, world: W)
    requires Ends(b, txs, r, queued, world) && r == Completed
    ensures Some(world) == Fold(b.env.step, b.world, TxCalls(b.env.keccak, txs))
    ensures queued == b.queued - Slots(b.env.keccak, txs)
  {
    assert txs[..|txs|] == txs;
  }

  /** A repeated action stops the run no later than its second occurrence. */
  lemma RepeatedActionStops<W>(
    b: Bench<W>, actions: seq<Action>, i: nat, j: nat, r: Ending, queued: set<word>, world: W)
    requires i < j < |actions| && actions[i] == actions[j]
    requires Ends(b, TxsOf(actions, Eta(b.rules, b.clock)), r, queued, world)
    ensures r == TimeInThePast || (r.ActionFailed? && r.index <= j)
  {
    var txs := TxsOf(actions, Eta(b.rules, b.clock));
    if r != TimeInThePast {
      var start := Prepare(b, txs).value;
      assert txs[..j][i] == txs[j];
      assert !Runs(start, txs, j);
    }
  }

  /** Caller, window and calls are good; only the slots can still stop the run. */
  ghost predicate OnlySlotsMatter<W>(b: Bench<W>, actions: seq<Action>) {
    var eta := Eta(b.rules, b.clock);
    var txs := TxsOf(actions, eta);
    var mined := Tick(b.env.gap, b.clock);
    && b.sender == b.rules.admin && !b.rules.paused
    && mined.now <= eta
    && Ticks(b.env.gap, IncreaseTo(b.env.gap, mined, eta).value, |txs|).now <= eta + GRACE_PERIOD
    && Fold(b.env.step, b.world, TxCalls(b.env.keccak, txs)).Some?
  }

  /** Action i shares its slot with an earlier one. */
  ghost predicate Repeats(keccak: Keccak, txs: seq<Tx>, i: nat)
    requires i < |txs|
  {
    exists j | 0 <= j < i :: TxHash(keccak, txs[j]) == TxHash(keccak, txs[i])
  }

  /** Caller, window and slots are good; only the calls can still stop the run. */
  ghost predicate OnlyCallsMatter<W>(b: Bench<W>, actions: seq<Action>) {
    var eta := Eta(b.rules, b.clock);
    var txs := TxsOf(actions, eta);
    var mined := Tick(b.env.gap, b.clock);
    && b.sender == b.rules.admin && !b.rules.paused
    && mined.now <= b.clock.now + 50
    && Ticks(b.env.gap, IncreaseTo(b.env.gap, mined, eta).value, |txs|).now <= eta + GRACE_PERIOD
    && DistinctSlots(b.env.keccak, txs)
  }

  /** Then the run stops exactly where the calls do, with the effect of those before. */
  lemma {:induction false} StopsWithTheCalls<W>(
    b: Bench<W>, actions: seq<Action>, r: Ending, queued: set<word>, world: W)
    returns (k: nat)
    requires OnlyCallsMatter(b, actions)
    requires Ends(b, TxsOf(actions, Eta(b.rules, b.clock)), r, queued, world)
    ensures var calls := TxCalls(b.env.keccak, TxsOf(actions, Eta(b.rules, b.clock)));
            && StopsAt(b.env.step, b.world, calls, k)
            && r == (if k < |calls| then ActionFailed(k) else Completed)
            && Some(world) == Fold(b.env.step, b.world, calls[..k])
  {
    var eta := Eta(b.rules, b.clock);
    var txs := TxsOf(actions, eta);
    JumpReachesEta(b.env.gap, Tick(b.env.gap, b.clock), eta);
    var start := Prepare(b, txs).value;
    StopsAtFirstRevert(start, txs, eta);
    k := FirstBlocked(start, txs, 0);
    assert TxCalls(b.env.keccak, txs)[..k] == TxCalls(b.env.keccak, txs[..k]);
  }

  /** Queued in time, the run stops exactly at the first action that repeats a slot, or completes. */
  lemma {:induction false} StopsExactlyAtFirstRepeat<W>(
    b: Bench<W>, actions: seq<Action>, r: Ending, queued: set<word>, world: W)
    requires OnlySlotsMatter(b, actions) && Tick(b.env.gap, b.clock).now <= b.clock.now + 50
    requires Ends(b, TxsOf(actions, Eta(b.rules, b.clock)), r, queued, world)
    ensures var txs := TxsOf(actions, Eta(b.rules, b.clock));
            && (r == Completed || r.ActionFailed?)
            && (r == Completed ==> forall i | 0 <= i < |txs| :: !Repeats(b.env.keccak, txs, i))
            && (r.ActionFailed? ==>
                  && r.index < |txs| && Repeats(b.env.keccak, txs, r.index)
                  && forall i | 0 <= i < r.index :: !Repeats(b.env.keccak, txs, i))
  {
    var eta := Eta(b.rules, b.clock);
    var txs := TxsOf(actions, eta);
    JumpReachesEta(b.env.gap, Tick(b.env.gap, b.clock), eta);
    var start := Prepare(b, txs).value;
    StopsAtFirstMissingSlot(start, txs, eta);
    assert Slots(b.env.keccak, txs) <= start.queued;
    forall i | 0 <= i < |txs|
      ensures HasOwnSlot(start, txs, i) <==> !Repeats(b.env.keccak, txs, i)
    {
      QueuedSlotIsOwn(start, txs, i);
    }
  }

  lemma {:induction false} QueuedSlotIsOwn<W>(b: Bench<W>, txs: seq<Tx>, i: nat)
    requires i < |txs| && Slots(b.env.keccak, txs) <= b.queued
    ensures HasOwnSlot(b, txs, i) <==> !Repeats(b.env.keccak, txs, i)
  {
    assert TxHash(b.env.keccak, txs[i]) in Slots(b.env.keccak, txs);
  }

  /**
   Queued late, the queue calls revert unseen, and the run stops exactly at the first action whose
   slot was not queued before the run, or repeats one, or else completes.
   */
  lemma {:induction false} LateQueueBlockStops<W>(
    b: Bench<W>, actions: seq<Action>, r: Ending, queued: set<word>, world: W)
    requires OnlySlotsMatter(b, actions) && Tick(b.env.gap, b.clock).now > b.clock.now + 50
    requires Ends(b, TxsOf(actions, Eta(b.rules, b.clock)), r, queued, world)
    ensures var txs := TxsOf(actions, Eta(b.rules, b.clock));
            && (r == Completed || r.ActionFailed?)
            && (r == Completed ==> forall i | 0 <= i < |txs| :: HasOwnSlot(b, txs, i))
            && (r.ActionFailed? ==>
                  && r.index < |txs| && !HasOwnSlot(b, txs, r.index)
                  && forall i | 0 <= i < r.index :: HasOwnSlot(b, txs, i))
  {
    var eta := Eta(b.rules, b.clock);
    var txs := TxsOf(actions, eta);
    JumpReachesEta(b.env.gap, Tick(b.env.gap, b.clock), eta);
    var start := Prepare(b, txs).value;
    StopsAtFirstMissingSlot(start, txs, eta);
    assert forall i | 0 <= i < |txs| :: HasOwnSlot(start, txs, i) <==> HasOwnSlot(b, txs, i);
  }

  /** Distinct actions have distinct slots unless two of their encodings collide. */
  lemma DistinctActionsHaveDistinctSlots(keccak: Keccak, actions: seq<Action>, eta: nat)
    requires eta < WORDS
    requires forall i, j | 0 <= i < j < |actions| :: actions[i] != actions[j]
    requires forall i | 0 <= i < |actions| :: Fits(TxVals(TxsOf(actions, eta)[i]))
    ensures var txs := TxsOf(actions, eta);
            DistinctSlots(keccak, txs)
            || exists i, j | 0 <= i < j < |txs| ::
               Collision(keccak, EncodeTuple(TxVals(txs[i])), EncodeTuple(TxVals(txs[j])))
  {
    var txs := TxsOf(actions, eta);
    if !DistinctSlots(keccak, txs) {
      var i, j :| 0 <= i < j < |txs| && TxHash(keccak, txs[i]) == TxHash(keccak, txs[j]);
      assert actions[i] != actions[j];
      TxHashDetermines(keccak, txs[i], txs[j]);
    }
  }

  lemma {:induction false} TicksBound(gap: Gap, c: Clock, k: nat, perBlock: nat)
    requires forall h: nat :: gap(h) < perBlock
    ensures Ticks(gap, c, k).now <= c.now + k * perBlock
  {
    if k > 0 {
      TicksBound(gap, c, k - 1, perBlock);
      assert k * perBlock == (k - 1) * perBlock + perBlock;
    }
  }

  /**
   When no block takes longer than perBlock, at most fifty seconds, every queue call is early
   enough and the i-th execute call lands after the eta, by at most i + 2 block times.
   */
  lemma TimingWindow<W>(b: Bench<W>, txs: seq<Tx>, i: nat, perBlock: nat)
    requires perBlock <= 50 && forall h: nat :: b.env.gap(h) < perBlock
    requires i < |txs| && b.sender == b.rules.admin && !b.rules.paused
    ensures var eta := Eta(b.rules, b.clock);
            var mined := Tick(b.env.gap, b.clock);
            && MayQueue(b.rules, b.sender, eta, mined.now)
            && Prepare(b, txs).Some?
            && eta < Ticks(b.env.gap, Prepare(b, txs).value.clock, i + 1).now <= eta + (i + 2) * perBlock
  {
    var eta := Eta(b.rules, b.clock);
    var mined := Tick(b.env.gap, b.clock);
    JumpReachesEta(b.env.gap, mined, eta);
    var start := Prepare(b, txs).value.clock;
    TicksBound(b.env.gap, start, i + 1, perBlock);
    TicksAdvance(b.env.gap, start, i + 1);
    assert (i + 2) * perBlock == (i + 1) * perBlock + perBlock;
  }

  lemma QuickTimes<W>(b: Bench<W>, n: nat, perBlock: nat)
    requires perBlock <= 50 && forall h: nat :: b.env.gap(h) < perBlock
    ensures var eta := Eta(b.rules, b.clock);
            var mined := Tick(b.env.gap, b.clock);
            && mined.now <= b.clock.now + 50 <= eta
            && Ticks(b.env.gap, IncreaseTo(b.env.gap, mined, eta).value, n).now <= eta + (n + 1) * perBlock
  {
    var eta := Eta(b.rules, b.clock);
    var mined := Tick(b.env.gap, b.clock);
    JumpReachesEta(b.env.gap, mined, eta);
    TicksBound(b.env.gap, IncreaseTo(b.env.gap, mined, eta).value, n, perBlock);
    assert (n + 1) * perBlock == n * perBlock + perBlock;
  }

  /** With quick blocks, an accepted caller and no shared slot, good calls are all it takes. */
  lemma {:induction false} QuickSimulationCompletes<W>(
    b: Bench<W>, actions: seq<Action>, r: Ending, queued: set<word>, world: W, perBlock: nat)
    requires perBlock <= 50 && forall h: nat :: b.env.gap(h) < perBlock
    requires (|actions| + 1) * perBlock <= GRACE_PERIOD
    requires b.sender == b.rules.admin && !b.rules.paused
    requires var txs := TxsOf(actions, Eta(b.rules, b.clock));
             && DistinctSlots(b.env.keccak, txs) && Ends(b, txs, r, queued, world)
             && Fold(b.env.step, b.world, TxCalls(b.env.keccak, txs)).Some?
    ensures r == Completed
  {
    QuickTimes(b, |actions|, perBlock);
    SimulationCompletesIff(b, actions, r, queued, world);
  }
}
