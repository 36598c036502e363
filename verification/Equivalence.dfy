/** The drivers agree: each, when it completes, has run the proposal's calls in order. */
module Equivalence {
  import opened Bytes
  import opened Abi
  import opened Calls
  import opened Calldata
  import opened Devnet
  import opened Proposals
  import opened Timelock
  import Sigma
  import Pod
  import opened PodSafety
  import Debug
  import G = Governor
  import opened GovernorRuns

  // ---------- One proposal for all drivers ----------

  /** A canonical signature is never empty. */
  ghost predicate Signed(contracts: Contracts) {
    forall name, entry | name in contracts && entry in contracts[name].methods ::
      contracts[name].methods[entry].signature != []
  }

  /** The commands compile, and every target has one address. */
  ghost predicate Agreed(contracts: Contracts, book: AddressBook, cs: seq<Command>) {
    Signed(contracts) && BuildActions(contracts, book, cs).Success? && AddressesAgree(contracts, book, cs)
  }

  ghost function Compiled(contracts: Contracts, book: AddressBook, cs: seq<Command>): seq<Action>
    requires BuildActions(contracts, book, cs).Success?
  {
    BuildActions(contracts, book, cs).value
  }

  /** The calls the proposal stands for. */
  ghost function Meant(keccak: Keccak, contracts: Contracts, book: AddressBook, cs: seq<Command>): seq<Call>
    requires BuildActions(contracts, book, cs).Success?
  {
    CallsOf(keccak, Compiled(contracts, book, cs))
  }

  ghost function TimelockTxs<W>(b: Sigma.Bench<W>, contracts: Contracts, book: AddressBook, cs: seq<Command>): seq<Tx>
    requires BuildActions(contracts, book, cs).Success?
  {
    Sigma.TxsOf(Compiled(contracts, book, cs), Sigma.Eta(b.rules, b.clock))
  }

  /** The timelock's calls for a proposal's actions are the calls those actions stand for. */
  lemma TimelockCallsAreMeant(keccak: Keccak, contracts: Contracts, book: AddressBook, cs: seq<Command>, eta: nat)
    requires Signed(contracts) && BuildActions(contracts, book, cs).Success?
    ensures TxCalls(keccak, Sigma.TxsOf(Compiled(contracts, book, cs), eta)) == Meant(keccak, contracts, book, cs)
  {
    var actions := BuildActions(contracts, book, cs).value;
    forall i | 0 <= i < |cs| ensures actions[i].signature != [] {
      BuildActionsAt(contracts, book, cs, i);
    }
  }

  lemma {:induction false} EntriesPrefix(
    keccak: Keccak, contracts: Contracts, book: AddressBook, cs: seq<Command>, i: nat)
    requires i <= |cs| && Pod.BuildEntries(keccak, contracts, book, cs).Success?
    ensures Pod.BuildEntries(keccak, contracts, book, cs[..i])
         == Success(Pod.BuildEntries(keccak, contracts, book, cs).value[..i])
  {
    if i > 0 {
      EntriesPrefix(keccak, contracts, book, cs[1..], i - 1);
      assert cs[..i][1..] == cs[1..][..i - 1];
      var all := Pod.BuildEntries(keccak, contracts, book, cs).value;
      assert all[..i] == [all[0]] + all[1..][..i - 1];
    }
  }

  /** When every target has an address, direct sends make the calls of the batch. */
  lemma {:induction false} SendsAreEntries(
    keccak: Keccak, contracts: Contracts, book: AddressBook, names: Debug.Names, cs: seq<Command>)
    requires Pod.BuildEntries(keccak, contracts, book, cs).Success?
    ensures Debug.BuildSends(keccak, contracts, book, names, cs)
         == Some(Pod.BuildEntries(keccak, contracts, book, cs).value)
  {
    if cs != [] {
      var n := |cs| - 1;
      EntriesPrefix(keccak, contracts, book, cs, n);
      SendsAreEntries(keccak, contracts, book, names, cs[..n]);
      Pod.BuildEntriesNext(keccak, contracts, book, cs, n);
      assert cs[..n + 1] == cs;
    }
  }

  lemma EntriesAreMeant(keccak: Keccak, contracts: Contracts, book: AddressBook, cs: seq<Command>)
    requires Agreed(contracts, book, cs)
    ensures Pod.BuildEntries(keccak, contracts, book, cs) == Success(Meant(keccak, contracts, book, cs))
  {
    EntriesBuildIff(keccak, contracts, book, cs);
    EntriesAreCallsIff(keccak, contracts, book, cs);
  }

  // ---------- Where direct sends stop ----------

  /** Direct sends stop exactly where the calls do, with the effect of those before. */
  lemma DirectSendsStopWithTheCalls<W>(
    env: Env<W>, w: W, contracts: Contracts, book: AddressBook, names: Debug.Names, cs: seq<Command>)
    requires Agreed(contracts, book, cs)
    ensures var k := Debug.FirstUnsent(env, w, contracts, book, names, cs, 0);
            var calls := Meant(env.keccak, contracts, book, cs);
            && StopsAt(env.step, w, calls, k)
            && Debug.BuildSends(env.keccak, contracts, book, names, cs[..k]) == Some(calls[..k])
  {
    var k := Debug.FirstUnsent(env, w, contracts, book, names, cs, 0);
    EntriesAreMeant(env.keccak, contracts, book, cs);
    SendsOfPrefix(env.keccak, contracts, book, names, cs, k);
    if k > 0 {
      assert Debug.Sends(env, w, contracts, book, names, cs, k - 1);
    }
    if k < |cs| {
      SendsOfPrefix(env.keccak, contracts, book, names, cs, k + 1);
    }
  }

  lemma SendsOfPrefix(
    keccak: Keccak, contracts: Contracts, book: AddressBook, names: Debug.Names, cs: seq<Command>, i: nat)
    requires i <= |cs| && Pod.BuildEntries(keccak, contracts, book, cs).Success?
    ensures Debug.BuildSends(keccak, contracts, book, names, cs[..i])
         == Some(Pod.BuildEntries(keccak, contracts, book, cs).value[..i])
  {
    EntriesPrefix(keccak, contracts, book, cs, i);
    SendsAreEntries(keccak, contracts, book, names, cs[..i]);
  }

  /** Direct sends get through the whole list exactly when its calls do. */
  lemma DebugCompletesIff<W>(
    env: Env<W>, w: W, contracts: Contracts, book: AddressBook, names: Debug.Names, cs: seq<Command>)
    requires Agreed(contracts, book, cs)
    ensures Debug.FirstUnsent(env, w, contracts, book, names, cs, 0) == |cs| <==>
            Fold(env.step, w, Meant(env.keccak, contracts, book, cs)).Some?
  {
    DirectSendsStopWithTheCalls(env, w, contracts, book, names, cs);
    var calls := Meant(env.keccak, contracts, book, cs);
    var k := Debug.FirstUnsent(env, w, contracts, book, names, cs, 0);
    assert calls[..|calls|] == calls;
    if Fold(env.step, w, calls).Some? {
      StopIsUnique(env.step, w, calls, k, |calls|);
    }
  }

  /**
   When only calls can fail, the queue and execute run names action k exactly when direct sends stop
   at k, and both leave the contracts with the effect of the calls before it.
   */
  lemma DriversStopTogether<W>(
    b: Sigma.Bench<W>, contracts: Contracts, book: AddressBook, names: Debug.Names, cs: seq<Command>,
    r: Sigma.Ending, queued: set<word>, world: W)
    requires Agreed(contracts, book, cs) && Sigma.OnlyCallsMatter(b, Compiled(contracts, book, cs))
    requires Sigma.Ends(b, TimelockTxs(b, contracts, book, cs), r, queued, world)
    ensures var k := Debug.FirstUnsent(b.env, b.world, contracts, book, names, cs, 0);
            var sent := Debug.BuildSends(b.env.keccak, contracts, book, names, cs[..k]);
            && r == (if k < |cs| then Sigma.ActionFailed(k) else Sigma.Completed)
            && sent.Some? && Some(world) == Fold(b.env.step, b.world, sent.value)
  {
    var calls := Meant(b.env.keccak, contracts, book, cs);
    DirectSendsStopWithTheCalls(b.env, b.world, contracts, book, names, cs);
    TimelockCallsAreMeant(b.env.keccak, contracts, book, cs, Sigma.Eta(b.rules, b.clock));
    var i := Sigma.StopsWithTheCalls(b, Compiled(contracts, book, cs), r, queued, world);
    StopIsUnique(b.env.step, b.world, calls, i, Debug.FirstUnsent(b.env, b.world, contracts, book, names, cs, 0));
  }

  // ---------- Where the drivers end ----------

  /**
   One proposal, one acting account and agreeing addresses: wherever direct sends, the queue and
   execute run, the pod run or the governor run completes, it ends in the fold of the same calls;
   and none of them completes if one of those calls fails.
   */
  lemma CompletedRunsAgree<W>(
    env: Env<W>, contracts: Contracts, book: AddressBook, names: Debug.Names, info: Description, w: W,
    bench: Sigma.Bench<W>, ending: Sigma.Ending, queued: set<word>, sigmaWorld: W,
    roles: Pod.Roles, state: Pod.State<W>, signer: address, pod: word,
    charter: G.Charter<W>, governor: G.State<W>, voter: address)
    requires Agreed(contracts, book, info.commands)
    requires bench.env == env && bench.world == w
    requires Sigma.Ends(bench, TimelockTxs(bench, contracts, book, info.commands), ending, queued, sigmaWorld)
    requires state.world == w
    requires charter.env == env && governor.world == w
    requires governor.p.calls == Meant(env.keccak, contracts, book, info.commands)
    ensures var end := Fold(env.step, w, Meant(env.keccak, contracts, book, info.commands));
            var podRun := Pod.Run(env, roles, state, info, contracts, book, signer, pod);
            var driven := G.Drive(charter, governor, voter);
            && (Debug.FirstUnsent(env, w, contracts, book, names, info.commands, 0) == |info.commands| <==> end.Some?)
            && (ending == Sigma.Completed ==> end == Some(sigmaWorld))
            && (podRun.0 == Pod.Done ==> end == Some(podRun.1.world))
            && (driven.0 == G.Enacted ==> end == Some(driven.1.world))
  {
    var cs := info.commands;
    EntriesAreMeant(env.keccak, contracts, book, cs);
    DebugCompletesIff(env, w, contracts, book, names, cs);
    TimelockCallsAreMeant(env.keccak, contracts, book, cs, Sigma.Eta(bench.rules, bench.clock));
    if ending == Sigma.Completed {
      Sigma.CompletedSimulation(bench, TimelockTxs(bench, contracts, book, cs), ending, queued, sigmaWorld);
    }
    var b := Pod.BatchOfCalls(Meant(env.keccak, contracts, book, cs), env.keccak(info.title));
    RunOutcome(env, roles, state, b, signer, pod, info.description);
    DriverEffect(charter, governor, voter);
  }

  // ---------- When all three simulations complete ----------

  /** Blocks take at most perBlock seconds, and n of them fit the timelock's windows. */
  ghost predicate Quick(gap: Gap, n: nat, perBlock: nat) {
    && perBlock <= 50 && (n + 1) * perBlock <= GRACE_PERIOD
    && forall h: nat :: gap(h) < perBlock
  }

  ghost predicate TwoCollide(keccak: Keccak, txs: seq<Tx>) {
    exists i, j | 0 <= i < j < |txs| ::
      Collision(keccak, EncodeTuple(TxVals(txs[i])), EncodeTuple(TxVals(txs[j])))
  }

  /**
   When the calls succeed, blocks are quick, the timelock accepts its caller, no two actions share
   a slot, and the pod's operation is new and its signer trusted, all three simulations complete,
   and all in the fold of the same calls.
   */
  lemma SuccessfulCallsCompleteEverywhere<W>(
    env: Env<W>, contracts: Contracts, book: AddressBook, names: Debug.Names, info: Description, w: W, perBlock: nat,
    bench: Sigma.Bench<W>, ending: Sigma.Ending, queued: set<word>, sigmaWorld: W,
    roles: Pod.Roles, state: Pod.State<W>, signer: address, pod: word)
    requires Agreed(contracts, book, info.commands) && Quick(env.gap, |info.commands|, perBlock)
    requires Fold(env.step, w, Meant(env.keccak, contracts, book, info.commands)).Some?
    requires bench.env == env && bench.world == w && bench.sender == bench.rules.admin && !bench.rules.paused
    requires var txs := TimelockTxs(bench, contracts, book, info.commands);
             DistinctSlots(env.keccak, txs) && Sigma.Ends(bench, txs, ending, queued, sigmaWorld)
    requires state.world == w
    requires var b := PodBatch(env.keccak, Compiled(contracts, book, info.commands), info.title);
             PodIsNew(env, roles, state, b, signer, pod, info.description)
    ensures Debug.FirstUnsent(env, w, contracts, book, names, info.commands, 0) == |info.commands|
    ensures ending == Sigma.Completed
    ensures var podRun := Pod.Run(env, roles, state, info, contracts, book, signer, pod);
            && podRun.0 == Pod.Done
            && Some(sigmaWorld) == Some(podRun.1.world)
               == Fold(env.step, w, Meant(env.keccak, contracts, book, info.commands))
  {
    var cs := info.commands;
    var actions := Compiled(contracts, book, cs);
    EntriesAreMeant(env.keccak, contracts, book, cs);
    DebugCompletesIff(env, w, contracts, book, names, cs);
    TimelockCallsAreMeant(env.keccak, contracts, book, cs, Sigma.Eta(bench.rules, bench.clock));
    Sigma.QuickSimulationCompletes(bench, actions, ending, queued, sigmaWorld, perBlock);
    Sigma.CompletedSimulation(bench, TimelockTxs(bench, contracts, book, cs), ending, queued, sigmaWorld);
    OfflineBatchIsSimulatedIff(env.keccak, contracts, book, info);
    var b := Pod.BatchOfCalls(Meant(env.keccak, contracts, book, cs), env.keccak(info.title));
    RunOutcome(env, roles, state, b, signer, pod, info.description);
  }

  /**
   For every list of pairwise distinct actions whose calls all succeed, in quick blocks and with
   accepted callers: unless two of the timelock's encodings collide, direct sends, the queue and
   execute run and the pod run all complete, and all end in the left fold of the calls.
   */
  lemma DistinctActionsRunAlike<W>(
    env: Env<W>, contracts: Contracts, book: AddressBook, names: Debug.Names, info: Description, w: W, perBlock: nat,
    bench: Sigma.Bench<W>, ending: Sigma.Ending, queued: set<word>, sigmaWorld: W,
    roles: Pod.Roles, state: Pod.State<W>, signer: address, pod: word)
    requires Agreed(contracts, book, info.commands) && Quick(env.gap, |info.commands|, perBlock)
    requires var actions := Compiled(contracts, book, info.commands);
             forall i, j | 0 <= i < j < |actions| :: actions[i] != actions[j]
    requires Fold(env.step, w, Meant(env.keccak, contracts, book, info.commands)).Some?
    requires bench.env == env && bench.world == w && bench.sender == bench.rules.admin && !bench.rules.paused
    requires Sigma.Eta(bench.rules, bench.clock) < WORDS
    requires var txs := TimelockTxs(bench, contracts, book, info.commands);
             && (forall i | 0 <= i < |txs| :: Fits(TxVals(txs[i])))
             && Sigma.Ends(bench, txs, ending, queued, sigmaWorld)
    requires state.world == w
    requires var b := PodBatch(env.keccak, Compiled(contracts, book, info.commands), info.title);
             PodIsNew(env, roles, state, b, signer, pod, info.description)
    ensures var cs := info.commands;
            var end := Fold(env.step, w, Meant(env.keccak, contracts, book, cs));
            var podRun := Pod.Run(env, roles, state, info, contracts, book, signer, pod);
            || TwoCollide(env.keccak, TimelockTxs(bench, contracts, book, cs))
            || (&& Debug.FirstUnsent(env, w, contracts, book, names, cs, 0) == |cs|
                && Debug.BuildSends(env.keccak, contracts, book, names, cs) ==
                   Some(Meant(env.keccak, contracts, book, cs))
                && ending == Sigma.Completed && Some(sigmaWorld) == end
                && podRun.0 == Pod.Done && Some(podRun.1.world) == end)
  {
    var cs := info.commands;
    var eta := Sigma.Eta(bench.rules, bench.clock);
    Sigma.DistinctActionsHaveDistinctSlots(env.keccak, Compiled(contracts, book, cs), eta);
    if DistinctSlots(env.keccak, TimelockTxs(bench, contracts, book, cs)) {
      EntriesAreMeant(env.keccak, contracts, book, cs);
      SendsAreEntries(env.keccak, contracts, book, names, cs);
      SuccessfulCallsCompleteEverywhere(
        env, contracts, book, names, info, w, perBlock, bench, ending, queued, sigmaWorld, roles, state, signer, pod);
    }
  }
}
