# Verification of the governance-proposal pipeline

A Dafny 4.11 model of how this repository turns a list of templated commands into on-chain calldata,
of the four drivers that carry such a list out, and of some of the proposals themselves. Everything is
proved by the verifier alone: `dafny verify dfyconfig.toml`.

## What is modelled

**The compiler and its encodings.** `Bytes`, `Hex` and `Abi` hold machine words, hex strings and the
nested head/tail encoding of the Solidity Contract ABI Specification (sections "Function Selector" and
"Formal Specification of the Encoding"), with its decoder. `Proposals` compiles commands into parallel
lists; `Calldata` splices selectors, builds the governor's and the pod's calldatas and the operation id, and
has the called contracts receive them: by the selector of a method's name and parameter types. Encodings and
pre-images are stated byte by byte as well as by what decoding gives back.
keccak256 is an arbitrary function from byte strings to words. It is never taken to be injective: where
a statement could fail by a collision, the statement names the two colliding byte strings.

**Four drivers of one list of commands.** `Devnet` is the chain: a clock that the time helpers move, a
state of unknown type `W`, and a `step` that says what one call does to it (None is a revert). Block times
are arbitrary: each block comes at least one second after its predecessor, by a gap that is a parameter.
A transaction that reverts still takes a block. On it stand

- `Sigma` with `Timelock`: queue every action, jump to the eta, execute one by one, check the receipts;
- `Pod` and `PodSafety`: schedule a batch, wait, execute it, over a TimelockController;
- `Governor` and `GovernorRuns`: the proposal lifecycle by block height and time;
- `Debug`: one direct transaction a command.

Each driver is a class with methods, in the form of the scripts, and is proved against a function or
predicate on values; the theorems are about those. `Equivalence` compares all four.

**Proposals as programs.** `Ledger` interprets the token commands of a proposal over arbitrary balances,
allowances and supplies, `LedgerLaws` states conservation, `TcConsolidate` decides from which ledgers
tc_consolidate meets its own `validate` and what it leaves behind, and `Tip121aCont` with `Tip121aContRuns`
decides the same for the later tip_121a_cont, which spends what tc_consolidate left, and then for both in turn.
`TcConsolidateOnChain` joins the ledger to the drivers: contracts that decode their calldata turn tc_consolidate's
compiled calls back into its ledger program, so that simulating it through the pod runs that program. `Guards`,
`FuseWithdrawalGuard` and `ProtecActions` are the withdrawal guards with the loops that fire them and the
hand-sliced calldata they print. `IndexRemovals` says which elements a list of index removals takes, and
`NamedDeposits` is the deposit list that fip_61 creates and fip_73b so takes apart. `BadDebt` and `FormatNumber`
are the two arithmetic helpers. `Amounts` holds the sums that several of these share.

## What the code does that one might not expect

- `execProposal` entered exactly one block before `endBlock`: its own vote is mined in `endBlock`, so it asks to
  advance by no blocks, which ethers writes as `0x`. Whether the node takes that as a quantity is the
  parameter `emptyQuantity`; without it the run throws (`FreshProposalIsEnactedIff` is an if-and-only-if about it).
- `execProposal` entered at or after `endBlock` prints "Already queued" without looking. It succeeds exactly when, in the
  block of its execute call, the proposal really is queued and not past its grace period, its eta is reached, the timelock
  accepts its caller, the actions' slots are queued and distinct, and every call succeeds; with no actions at all only the
  first condition remains (`LateEntryIff`).
- `SigmaProposal._simulate` sends its queue transactions with automining off and never looks at their receipts. If
  the block that holds them is more than fifty seconds late they revert unseen, and the run stops later, at the
  first action whose slot was not queued before the run or repeats one (`LateQueueBlockStops`).
- A repeated action makes `_simulate` stop at its second occurrence at the latest (`RepeatedActionStops`), and exactly
  at the first repetition when nothing else is wrong (`StopsExactlyAtFirstRepeat`): occurrences share one slot.
- A guard's withdrawal from a paused deposit goes through: the guardian unpauses the deposit first, and leaves it so
  (`DrainUnpauses`).
- Staking through EthLidoPCVDeposit buys stETH only when the stable swap quotes more than the ETH put in; otherwise
  it mints stETH, so no stETH needs to be on sale (`StakeEffect`, `RunConserves`).
- `simulatePodProposal` takes targets from the address map and the calldata builder takes them from the contract
  objects; the two ids agree exactly when these addresses do, or the hash collides (`OfflineIdIsSimulatedId`).
- Removing index by index takes other elements than the listed ones when earlier removals have moved these. Under deletion
  that keeps the order, distinct elements go as listed exactly when the indices descend and are in range
  (`RemovalRemovesListedIff`; `AscendingMissesListed` has a failing list). The contract's swap-and-pop is more tolerant: the
  listed elements go, in whatever order, exactly when no index repeats and each is in range in its turn, that is, the k-th
  index, counted from zero, plus k is below the length (`SwapPopRemovesListedIff`; `SwapPopMissesListed` has failing lists).
- In `getFuseBadDebt` a market with debt in an unlisted underlying ends the script, and the WETH and wstETH
  buckets are never scaled.

## Model

| member | source | states |
|---|---|---|
| Abi.DecodeEncode | scripts/utils/constructProposalCalldata.ts:138-141 | any typed value, nested to any depth, is read back from any buffer its encoding starts |
| Abi.TupleRoundTrip | scripts/utils/constructProposalCalldata.ts:138-141 | decoding inverts the head/tail encoding of every typed tuple |
| Abi.EncodeTupleInjective | scripts/utils/constructProposalCalldata.ts:138-142 | two tuples of the same types with the same encoding are the same tuple |
| Abi.TupleLayout | scripts/utils/constructProposalCalldata.ts:138-142 | byte by byte: each head is the number or the offset right behind the earlier encodings, each encoding is at its offset, and nothing else is there |
| Abi.BytesLayout | scripts/utils/constructProposalCalldata.ts:138-142 | a byte string is its length, itself, and the fewest zero bytes that fill a word |
| Abi.DecodedHasType | scripts/utils/constructProposalCalldata.ts:138-142 | whatever the decoder accepts has the type it was decoded as |
| Hex.HexlifySplice | scripts/utils/constructProposalCalldata.ts:56-57 | appending a hex string without its prefix appends the bytes |
| Hex.HexlifyInjective | scripts/utils/constructProposalCalldata.ts:80-81 | equal hex strings are equal bytes |
| Hex.DigitsAt | scripts/utils/constructProposalCalldata.ts:56-57 | each byte is its two lower-case digits, the high half first |
| Hex.ArrayifyIff | scripts/utils/constructProposalCalldata.ts:80-81 | a string is read as some bytes exactly when it has the prefix and is, but for letter case, how they are written |
| Hex.SameBytesIff | proposals/dao/old/tip_121a.ts:300-305 | two readable strings differ only in letter case exactly when they are read alike |
| Hex.LowerCharTable | proposals/dao/old/tip_121a.ts:302 | the twenty-six capitals become their small letters, and no other character changes |
| Proposals.BuildActionsNext | scripts/utils/constructProposal.ts:178-191 | the first bad command decides the whole list; a good one extends its prefix's actions by its own |
| Proposals.SigmaProposal.AddContractAction | scripts/utils/constructProposal.ts:188 | the four parallel lists grow together by one action |
| Proposals.ConstructProposal | scripts/utils/constructProposal.ts:161-197 | one action a command in order with title, newline and description; or the error of the first bad command |
| Calldata.CompilesIff | scripts/utils/constructProposal.ts:178-191 | a list compiles exactly when each command names a method and makes arguments of its types |
| Calldata.CompiledCallCarriesArguments | scripts/utils/constructProposal.ts:178-191 | a compiled call starts with its own method's selector, and that method receives the arguments of the template |
| Calldata.CallRoundTrip | scripts/utils/constructProposalCalldata.ts:60-65 | a function receives the arguments its calldata was made from |
| Calldata.ComputeBatchProposalId | scripts/utils/constructProposalCalldata.ts:131-143 | the id is the hash of the batch's encoding, for payloads given as hex strings |
| Calldata.BatchIdDetermines | scripts/utils/constructProposalCalldata.ts:131-143 | equal ids mean equal batches, or two named encodings collide |
| Calldata.BatchPreimage | scripts/utils/constructProposalCalldata.ts:138-142 | what is hashed for an id, word by word: offsets, predecessor, salt, then targets, values and payloads |
| Calldata.SighashSplice | scripts/utils/constructProposalCalldata.ts:80-81 | the first ten characters of a signature's id, spliced onto argument digits, are the action's calldata |
| Calldata.CombineCalldatas | scripts/utils/constructProposalCalldata.ts:78-82 | the loop's strings stand for the payloads of the proposal's actions, index by index |
| Calldata.GetDAOCalldata | scripts/utils/constructProposalCalldata.ts:51-68 | the propose call carries the proposal's own actions and description |
| Calldata.ProposeDelivers | scripts/utils/constructProposalCalldata.ts:54-67 | the propose call reaches propose, which receives exactly the calls that direct sending would make, in order |
| Calldata.GetPodCalldata | scripts/utils/constructProposalCalldata.ts:70-129 | the printed text labels four calldatas of one batch, salted by the title; what they do is stated next |
| Calldata.PrintedBytes | scripts/utils/constructProposalCalldata.ts:128 | read line by line, the text has behind each label the calldata of that name |
| Calldata.ParameterLists | scripts/utils/constructProposalCalldata.ts:60-118 | how the parameter types of the five methods are written in the signatures that are hashed |
| Calldata.PrintedAlikeCalldatas | scripts/utils/constructProposalCalldata.ts:87-128 | two proposals that print the same text have the same four calldatas |
| Calldata.PodCalldatasDescribeOneOperation | scripts/utils/constructProposalCalldata.ts:87-128 | as printed: the schedule calldata reaches scheduleBatch with a delay of four days, execute reaches executeBatch and pod-execute the pod executor, all with one batch; the metadata carries the hash of the execute arguments |
| Devnet.Devnet.IncreaseTimeTo | test/helpers.ts:232-240 | moves the clock past the given time, or throws on a moment in the past and moves nothing |
| Devnet.IncreaseLands | test/helpers.ts:220-230 | waiting takes two blocks that far apart, or one block for no wait |
| Devnet.AdvanceBlockToIff | test/helpers.ts:242-251 | advancing ends at exactly the given block and at what time, and when it throws |
| Timelock.TxHashDetermines | contracts/dao/timelock/Timelock.sol:164-172 | two transactions share a slot only if they are equal or their encodings collide |
| Timelock.SlotPreimage | contracts/dao/timelock/Timelock.sol:164-172 | what is hashed, word by word: target, value, eta, and the signature before the data |
| Timelock.Timelock.QueueTransaction | contracts/dao/timelock/FeiDAOTimelock.sol:25-33 | queues exactly for the admin, unpaused, with an eta the delay ahead; otherwise changes nothing |
| Timelock.Timelock.ExecuteTransaction | contracts/dao/timelock/Timelock.sol:131-162 | consumes a queued slot inside its window together with the call's effect, or reverts both |
| Sigma.QueueAll | scripts/utils/constructProposal.ts:69-78 | all queue calls land in one block, and queue every slot or none |
| Sigma.NextAction | scripts/utils/constructProposal.ts:86-89 | whether an action runs, and what it leaves, in terms of what its predecessors left |
| Sigma.ExecuteAll | scripts/utils/constructProposal.ts:81-120 | executes exactly the actions before the first blocked one, in order, one receipt each, receipt k for action k |
| Sigma.CheckReceipts | scripts/utils/constructProposal.ts:127-134 | names the first receipt that failed, or completes |
| Sigma.Simulate | scripts/utils/constructProposal.ts:35-44 | refuses a second run unless forced, marks the proposal simulated only on completion, and ends as specified |
| Sigma.QueueAndExecute | scripts/utils/constructProposal.ts:47-138 | the run ends as specified: completed, time in the past, or the index of the first action that did not go through |
| Sigma.AllRunIff | scripts/utils/constructProposal.ts:85-120 | all actions run exactly if caller, slots, distinctness, window and all calls are good |
| Sigma.StopsAtFirstRevert | scripts/utils/constructProposal.ts:94-117 | when nothing else can fail the run stops exactly at the first call that reverts |
| Sigma.StopsWithTheCalls | scripts/utils/constructProposal.ts:86-138 | when only calls can fail the run names action k exactly if the k-th call is the first to revert, and leaves the effect of those before |
| Sigma.StopsAtFirstMissingSlot | scripts/utils/constructProposal.ts:86-117 | when caller, window and calls are good the run stops exactly at the first action without a queued slot of its own |
| Sigma.SimulationCompletesIff | scripts/utils/constructProposal.ts:63-138 | the exact condition, readable before the run, under which a simulation completes |
| Sigma.CompletedSimulation | scripts/utils/constructProposal.ts:121-138 | a completed simulation has the fold of its calls as effect, and each of its slots is consumed |
| Sigma.RepeatedActionStops | scripts/utils/constructProposal.ts:72-76 | an action listed twice stops the run no later than its second occurrence, whatever else fails |
| Sigma.StopsExactlyAtFirstRepeat | scripts/utils/constructProposal.ts:72-117 | queued in time and with good calls, the run stops exactly at the first action that repeats a slot |
| Sigma.LateQueueBlockStops | scripts/utils/constructProposal.ts:67-117 | queued late, it stops exactly at the first action whose slot was not queued before or repeats one |
| Sigma.DistinctActionsHaveDistinctSlots | scripts/utils/constructProposal.ts:72-76 | pairwise distinct actions have distinct slots, or two encodings collide |
| Sigma.TimingWindow | scripts/utils/constructProposal.ts:63-89 | with blocks of at most fifty seconds every queue call is early enough and the i-th execute call lands after the eta, by a bound |
| Sigma.QuickSimulationCompletes | scripts/utils/constructProposal.ts:63-138 | quick blocks times actions within the grace period, distinct slots and good calls suffice |
| Pod.Controller.ScheduleBatch | scripts/utils/simulateTimelockProposal.ts:88 | one block; a new operation is recorded with its ready time, or nothing but the clock changes |
| Pod.Controller.RegisterProposal | contracts/pods/GovernanceMetadataRegistry.sol:38-49 | one block; new, non-empty metadata by a registrar, or nothing but the clock changes |
| Pod.Controller.ExecuteBatch | scripts/utils/simulateTimelockProposal.ts:105 | one block; all calls of a ready operation or none, and the operation is done |
| Pod.BuildBatch | scripts/utils/simulateTimelockProposal.ts:46-80 | the batch of the commands in order, or the error of the first bad one |
| Pod.SimulatePodProposal | scripts/utils/simulateTimelockProposal.ts:33-111 | outcome and whole new state of a run, on every path |
| PodSafety.RunOutcome | scripts/utils/simulateTimelockProposal.ts:84-110 | when one run completes and with what effect; what it leaves alone otherwise |
| PodSafety.RunEndsAs | scripts/utils/simulateTimelockProposal.ts:84-110 | each way a run can fail happens exactly on its own condition |
| PodSafety.DoneLeaves | scripts/utils/simulateTimelockProposal.ts:84-110 | the whole state a completed run leaves: operation done, metadata registered, both events with their times, and nothing else |
| PodSafety.PlayAllKeepsInv | scripts/utils/simulateTimelockProposal.ts:84-110 | every sequence of runs and waits keeps log and timestamps consistent for every operation |
| PodSafety.PodRunsAreSafe | scripts/utils/simulateTimelockProposal.ts:84-110 | over every sequence of runs: scheduled at most once, executed at most once, never before the ready time |
| PodSafety.EntriesBuildIff | scripts/utils/simulateTimelockProposal.ts:53-77 | a list builds for the pod exactly if it builds for the DAO and all targets have addresses |
| PodSafety.OfflineBatchIsSimulatedIff | scripts/utils/constructProposalCalldata.ts:78-107 | the offline batch is the simulated one exactly when contract objects and address map agree |
| PodSafety.OfflineIdIsSimulatedId | scripts/utils/simulateTimelockProposal.ts:84 | so do the ids, in one direction up to a named collision |
| PodSafety.SubmittedCalldataConsumesItsOperation | scripts/utils/constructProposalCalldata.ts:87-128 | the printed calldatas, sent to their contracts: schedule and metadata are accepted, and four days later pod-execute or execute consumes the operation that was registered, with the same end |
| Governor.Governor.Vote | contracts/dao/governor/GovernorAlpha.sol:351-373 | one block; counts a fresh voter during the vote only |
| Governor.Governor.Queue | contracts/dao/governor/GovernorAlpha.sol:215-241 | one block; queues all calls of a succeeded proposal with one eta, or none |
| Governor.Governor.Execute | contracts/dao/governor/GovernorAlpha.sol:243-260 | one block; executes all calls of a queued proposal, or none |
| Governor.Governor.ExecProposal | scripts/utils/exec.ts:35-81 | outcome and whole new state of the driver, on every path |
| GovernorRuns.QueueEachIff | contracts/dao/governor/GovernorAlpha.sol:229-241 | queueing goes through exactly for free and pairwise distinct slots, and queues just those |
| GovernorRuns.ExecuteEachIff | contracts/dao/governor/GovernorAlpha.sol:243-260 | executing goes through exactly for queued, distinct slots in their window whose calls all succeed |
| GovernorRuns.EarlyEntryIff | scripts/utils/exec.ts:46-79 | the exact condition, on the block and time of entry, under which a run entering before the end of the vote enacts the proposal |
| GovernorRuns.LateEntryIff | scripts/utils/exec.ts:70-79 | the exact condition for a run that enters later, on votes, eta, blocks and calls |
| GovernorRuns.DriverEffect | scripts/utils/exec.ts:35-81 | an enacted proposal has the fold of its calls as effect; any other run leaves the contracts alone |
| GovernorRuns.VoteCountsIff | contracts/dao/governor/GovernorAlpha.sol:351-373 | in exactly which blocks a vote counts, once a voter |
| GovernorRuns.EnactedLeaves | scripts/utils/exec.ts:46-79 | the whole state an enacting run leaves, in the fourth block after the vote's end when it entered early |
| GovernorRuns.FreshProposalIsEnactedIff | scripts/utils/exec.ts:46-79 | a fresh, carried proposal with good calls is enacted from every entry block with at least one more voting block to come, and from the last one exactly if the node takes `0x` |
| GovernorRuns.EmptyProposalIsEnacted | scripts/utils/exec.ts:46-79 | a worked run: the vote in block 101, the queueing in 151, the end in 154 with every time |
| GovernorRuns.LastVotingBlockThrows | scripts/utils/exec.ts:61-66 | from the block before the end the vote is counted and the advance throws, if the node refuses `0x` |
| GovernorRuns.LateVoteThrows | scripts/utils/exec.ts:61-66 | such a run exists: a concrete state where all other conditions hold |
| GovernorRuns.QueuedProposalIsEnactedIff | scripts/utils/exec.ts:70-79 | a queued proposal is enacted from every later block exactly unless the jump lets it expire |
| Debug.SimulateDEBUGProposal | scripts/utils/simulateDEBUGProposal.ts:4-31 | sends exactly the commands before the first that fails, with their joint effect and no more |
| Equivalence.DirectSendsStopWithTheCalls | scripts/utils/simulateDEBUGProposal.ts:11-29 | direct sends stop exactly at the first call that reverts, having sent the calls before it |
| Equivalence.DriversStopTogether | scripts/utils/simulateDEBUGProposal.ts:11-29 | when only calls can fail, the queue and execute run names action k exactly when direct sends stop at k, and both leave the same state |
| Equivalence.DebugCompletesIff | scripts/utils/simulateDEBUGProposal.ts:11-29 | direct sends get through exactly when the fold of the calls succeeds |
| Equivalence.CompletedRunsAgree | scripts/utils/simulateTimelockProposal.ts:53-105 | whichever of the four drivers completes, it ends in the fold of the same calls |
| Equivalence.SuccessfulCallsCompleteEverywhere | scripts/utils/constructProposal.ts:72-120 | when the calls succeed and slots are distinct, all three simulations complete, in the same end state |
| Equivalence.DistinctActionsRunAlike | scripts/utils/constructProposal.ts:63-138 | pairwise distinct actions with good calls in quick blocks: all three simulations complete in the same fold, or two named encodings collide |
| LedgerLaws.RunConserves | proposals/description/tip_121a_cont.ts:12-92 | over any list of commands what a token had and was minted is what it has and was burned, in balances and in supply |
| LedgerLaws.WethStaysBacked | contracts/external/WETH9.sol:50-59 | WETH's supply, the ETH it holds, falls by exactly the WETH unwrapped |
| LedgerLaws.RunKeepsOthers | proposals/description/tip_121a_cont.ts:12-92 | an account no command names keeps all its balances |
| LedgerLaws.FullWithdrawalEmpties | contracts/pcv/utils/RatioPCVControllerV2.sol:90-107 | a withdrawal of 10000 basis points goes through exactly for a positive balance, and leaves zero |
| LedgerRuns.RatioTakesPart | contracts/pcv/utils/RatioPCVControllerV2.sol:90-107 | any ratio withdrawal takes the whole units of its part of the balance, and refuses none or more than all |
| LedgerRuns.TransferFromIff | contracts/tribe/Tribe.sol:225-243 | taking needs the balance and enough of an allowance that is used up; TRIBE moves 96 bits at most |
| LedgerRuns.AllowanceAfter | contracts/tribe/Tribe.sol:225-243 | taking lowers just that allowance by the amount, unless it is unlimited |
| LedgerRuns.ApproveEffect | contracts/tribe/Tribe.sol:140-152 | an approval replaces one allowance and nothing else |
| TcConsolidate.Script.Setup | proposals/dao/old/tc_consolidate.ts:50-52 | the script's variable holds the FEI supply before |
| TcConsolidate.Script.Validate | proposals/dao/old/tc_consolidate.ts:62-88 | passes exactly when all its expectations hold |
| TcConsolidate.ClawbackEffect | contracts/timelocks/TokenTimelock.sol:112-118 | a clawback goes through exactly when the lock covers the vested part; the beneficiary gets that, the council the rest, and the lock is empty |
| TcConsolidate.ConsolidationEffect | proposals/description/old/tc_consolidate.ts:19-89 | the eight commands together, exactly when and with what effect |
| TcConsolidate.ValidatedIffExact | proposals/dao/old/tc_consolidate.ts:62-88 | the proposal runs and meets its own validate exactly from exact assets, enough FEI and covered vestings |
| TcConsolidateOnChain.CompiledProgramRuns | scripts/utils/simulateTimelockProposal.ts:53-77 | commands whose compiled calls the contracts decode as steps of a ledger program have that program's effect |
| TcConsolidateOnChain.UnderstoodMeans | proposals/description/old/tc_consolidate.ts:17-89 | a contract takes a call for a command only by its own address and that method's selector, and without ETH |
| TcConsolidateOnChain.MethodSignatures | proposals/description/old/tc_consolidate.ts:23-80 | the four method texts of the description are the hashed signatures |
| TcConsolidateOnChain.BatchRunsProgram | proposals/description/old/tc_consolidate.ts:17-89 | the compiled batch of tc_consolidate does to any ledger what its ledger program does |
| TcConsolidateOnChain.PodRunConsolidatesIff | scripts/utils/simulateTimelockProposal.ts:33-111 | simulated through the pod, tc_consolidate completes exactly when its program can run, and meets its validate exactly from exact assets |
| Tip121aCont.Script.Setup | proposals/dao/tip_121a_cont.ts:62-68 | the script's variables hold the snapshot of the state before |
| Tip121aCont.Script.Validate | proposals/dao/tip_121a_cont.ts:78-144 | passes exactly when all its expectations hold, on ledger, oracle and the two readings |
| Tip121aContRuns.SweepEffect | proposals/description/tip_121a_cont.ts:13-51 | emptying a swapper goes through exactly if the vault covers it and there is something to send on; where everything ends up |
| Tip121aContRuns.StakeEffect | contracts/pcv/lido/EthLidoPCVDeposit.sol:109-160 | unwrapping and staking goes through exactly under its conditions; on both branches where every WETH, ETH and stETH involved ends up |
| Tip121aContRuns.CleanupEffect | proposals/description/tip_121a_cont.ts:12-69 | the six cleanup commands together, exactly when and with what effect |
| Tip121aContRuns.ClawbackEffect | proposals/description/tip_121a_cont.ts:71-92 | the three clawback commands together, exactly when and with what effect |
| Tip121aContRuns.AddEachIff | contracts/oracle/collateralization/CollateralizationOracle.sol:108-135 | adding deposits goes through exactly for distinct new ones whose assets have oracles |
| Tip121aContRuns.RemoveEachIff | contracts/oracle/collateralization/CollateralizationOracle.sol:146-176 | removing deposits goes through exactly for distinct registered ones, and removes just those |
| Tip121aContRuns.UnsetEachIff | contracts/pcv/PCVGuardian.sol:76-87 | unsetting safe addresses goes through exactly for distinct safe ones, and removes just those |
| Tip121aContRuns.UnsetActs | contracts/pcv/PCVGuardian.sol:76-87 | the unsetting command also refuses an empty list, and changes nothing but the safe addresses |
| Tip121aContRuns.MaintenanceEffect | proposals/description/tip_121a_cont.ts:93-132 | the four maintenance commands together, exactly when, and what becomes of oracles, registered deposits and safe addresses |
| Tip121aContRuns.MaintainedByName | proposals/description/tip_121a_cont.ts:93-132 | afterwards the named deposits are gone or added, the named addresses are not safe, and the named oracle is set |
| Tip121aContRuns.ProposalEffect | proposals/description/tip_121a_cont.ts:11-133 | the thirteen commands go through exactly when each part can, from the state before the run, and where they lead in ledger, oracles, deposits and safe addresses |
| Tip121aContRuns.ValidatedIffReady | proposals/dao/tip_121a_cont.ts:78-144 | the proposal runs and meets its own validate exactly from the states that are ready for it, with plausible oracle readings |
| Tip121aContRuns.ReadyChainIsReady | proposals/dao/tip_121a_cont.ts:101-139 | there is such a state, with pools just above the minima and no stETH for sale |
| Tip121aContRuns.ConsolidationLeavesTreasuryIff | proposals/dao/old/tc_consolidate.ts:71-77 | tc_consolidate leaves the approvals, and the treasury the later proposal names exactly when what it leaves of FEI and TRIBE is as named |
| Tip121aContRuns.ConsolidatedTreasuryIsCleared | proposals/dao/tip_121a_cont.ts:101-134 | from every such treasury exactly the stated FEI is burnt and TRIBE moved, and all four places are empty |
| Tip121aContRuns.BothPassIff | proposals/dao/tip_121a_cont.ts:78-144 | tc_consolidate and then tip_121a_cont both run and both meet their validates exactly from a condition on the ledger before either |
| Guards.AmountIsLargest | contracts/sentinel/guards/FuseWithdrawalGuard.sol:74-93 | the amount is the largest above dust that leaves the liquidity to leave, and zero exactly if there is none |
| Guards.FirstReady | contracts/sentinel/guards/FuseWithdrawalGuard.sol:96-128 | the action is for the first deposit with a positive amount, and all before it have none |
| Guards.DrainConserves | proposals/dao/old/tip_121a.ts:287-294 | over any drain every holder gains what was sent to it and loses what was taken from it |
| Guards.DrainEmpties | proposals/dao/old/tip_121a.ts:276-295 | a loop that ends without a revert leaves every amount zero |
| Guards.DrainUnpauses | contracts/pcv/PCVGuardian.sol:93-107 | a drain unpauses exactly the deposits it takes from |
| Guards.DrainIsShort | proposals/dao/old/tip_121a.ts:276-295 | it takes at most one round for each deposit that is ready at the start, shared liquidity or not |
| Guards.DrainTakesWhatIsSeen | proposals/dao/old/tip_121a.ts:276-295 | with separate markets it takes exactly the amounts seen at the start, in order, and completes exactly if all are allowed |
| Guards.RoundsAreADrain | proposals/dao/old/fuse_withdrawal_guard.ts:102-106 | counted rounds that leave nothing ready are a whole drain of that many withdrawals |
| Guards.DrainIsRounds | proposals/dao/old/fuse_withdrawal_guard.ts:102-106 | and a whole drain is as many counted rounds |
| Guards.Sentinel.Check | contracts/sentinel/guards/FuseWithdrawalGuard.sol:63-71 | true exactly if some deposit is ready |
| Guards.Sentinel.Fire | contracts/sentinel/PCVSentinel.sol:85-100 | withdraws for the first ready deposit, or reverts and changes nothing |
| Guards.Sentinel.DrainAll | proposals/dao/old/tip_121a.ts:287-294 | the while loop ends, as the drain does, and counts its withdrawals |
| FuseWithdrawalGuard.FireEach | proposals/dao/old/fuse_withdrawal_guard.ts:102-105 | the counted loop completes exactly if each round finds and fires something |
| FuseWithdrawalGuard.Validate | proposals/dao/old/fuse_withdrawal_guard.ts:85-123 | passes exactly when all expectations hold, before, during and after the rounds |
| FuseWithdrawalGuard.DrainBrings | proposals/dao/old/fuse_withdrawal_guard.ts:118-122 | an account gains exactly the sum of the amounts paired with it and the token |
| FuseWithdrawalGuard.FlowsExceedFloors | proposals/dao/old/fuse_withdrawal_guard.ts:87-122 | the ten minima alone exceed the three floors |
| FuseWithdrawalGuard.PassesIffReadyAndAllowed | proposals/dao/old/fuse_withdrawal_guard.ts:85-123 | the whole validate passes exactly if its first ten expectations hold, the guard is known, both PSMs are safe, and no deposit is paused or the guardian may unpause |
| FuseWithdrawalGuard.PassingUnpauses | contracts/libs/CoreRefPauseableLib.sol:25-29 | a passing validate leaves none of the ten deposits paused, and touches no other |
| ProtecActions.SlicesReadArguments | proposals/dao/old/tip_121a.ts:278-280 | in every calldata leading with address, address, number the slices are the first address and the number |
| ProtecActions.SlicesInvertEncoding | proposals/dao/old/tip_121a.ts:289-291 | read back as numbers, they are the deposit and the amount of the guard's action |
| ProtecActions.GuardianReceives | contracts/sentinel/guards/FuseWithdrawalGuard.sol:106-119 | the action calls withdrawToSafeAddress with deposit, destination and amount, and with both flags false |
| ProtecActions.GetAddressLabel | proposals/dao/old/tip_121a.ts:300-305 | the first key whose address matches in any letter case, or the default |
| ProtecActions.LabelIsTheMatch | proposals/dao/old/tip_121a.ts:300-305 | with one key an address, the label is the key whose address reads as the same twenty bytes, capitals or not |
| ProtecActions.ActionIsLabelledByItsDeposit | proposals/dao/old/tip_121a.ts:276-305 | the label printed for an action is the key that denotes the deposit it withdraws from, or ??? if none does |
| IndexRemovals.DescendingRemovesListed | proposals/description/old/fip_73b.ts:55-110 | descending indices remove exactly the listed original elements, under order-preserving deletion |
| NamedDeposits.DescendingSwapPopsListed | proposals/description/old/fip_73b.ts:55-110 | so they do under swap-and-pop, and every total over what is left is the survivors' total |
| IndexRemovals.RemovalRemovesListedIff | proposals/description/old/fip_73b.ts:55-110 | of distinct elements, order-preserving deletion takes exactly the listed ones if and only if the indices descend in range |
| IndexRemovals.AscendingMissesListed | proposals/description/old/fip_73b.ts:55-110 | an ascending list on which order-preserving deletion takes another element, and swap-and-pop does not |
| IndexRemovals.SwapPopRemovesListedIff | contracts/pcv/utils/NamedStaticPCVDepositWrapper.sol:110-133 | swap-and-pop takes exactly the listed elements if and only if no index repeats and each is in range in its turn |
| IndexRemovals.SwapPopMissesListed | contracts/pcv/utils/NamedStaticPCVDepositWrapper.sol:110-133 | a repeated index takes an unlisted element, and an index out of range in its turn fails |
| NamedDeposits.Wrapper.AddDeposit | contracts/pcv/utils/NamedStaticPCVDepositWrapper.sol:61-76 | appends a deposit that has an amount and fits; the totals stay the sums |
| NamedDeposits.Wrapper.BulkAddDeposits | contracts/pcv/utils/NamedStaticPCVDepositWrapper.sol:143-147 | appends all deposits exactly if every one is accepted, else none |
| NamedDeposits.Wrapper.EditDeposit | contracts/pcv/utils/NamedStaticPCVDepositWrapper.sol:79-107 | replaces one deposit; the totals stay the sums |
| NamedDeposits.Wrapper.RemoveDeposit | contracts/pcv/utils/NamedStaticPCVDepositWrapper.sol:110-133 | swap-and-pop at an index in range; the totals stay the sums |
| NamedDeposits.Wrapper.RemoveDeposits | proposals/description/old/fip_73b.ts:55-110 | a list of removals goes through exactly if each index is in range in turn |
| NamedDeposits.ListedTotals | proposals/dao/old/fip_61.ts:200-202 | fip_61's ten deposits have the totals its validate expects |
| NamedDeposits.RemovalsValidateIff | proposals/dao/old/fip_73b.ts:84-87 | from any list fip_73b's removals and validate pass exactly if it has ten deposits, two of which hold the fifty million |
| BadDebt.Record.Accumulate | scripts/utils/getFuseBadDebt.ts:85-94 | each field is the sum of its own markets' debts; fails exactly on debt in an unlisted asset |
| BadDebt.Record.Scale | scripts/utils/getFuseBadDebt.ts:96-104 | nine fields are divided by their unit, two are left |
| BadDebt.BucketIgnoresOrder | scripts/utils/getFuseBadDebt.ts:85-94 | a bucket does not depend on market order |
| BadDebt.BucketsSumToTotal | scripts/utils/getFuseBadDebt.ts:85-94 | the buckets sum to the total debt |
| BadDebt.ScalingErrorBound | scripts/utils/getFuseBadDebt.ts:96-104 | dividing the sum exceeds the sum of divided debts by at most one less than their number |
| FormatNumber.FormatNumber | scripts/utils/printUtils.ts:1-23 | the branch-by-branch formatting equals the formatting by interval |
| FormatNumber.SuffixNamesUnit | scripts/utils/printUtils.ts:6-19 | two texts with the same suffix have the same unit |
| FormatNumber.SuffixesNameUnits | scripts/utils/printUtils.ts:6-19 | the six suffixes and the unit of each |
| FormatNumber.ReadBackIsClose | scripts/utils/printUtils.ts:1-23 | the printed text reads back within 0.005 of its unit |
| FormatNumber.ReadBackIsMonotone | scripts/utils/printUtils.ts:1-23 | larger numbers never read back smaller, across all unit boundaries and through zero |

## Assumptions about the chain

- TimelockController and Governor are OpenZeppelin's, version 4.7.3, whose sources are not part of this model; `Pod` and
  `Governor` follow their published behaviour. `GovernorAlpha.sol` is cited as the in-tree ancestor of the lifecycle.
- The calls of a proposal do not touch the timelock's, controller's or governor's own storage, and their effect does not
  depend on time: `step` acts on `W` alone. All drivers act from the same account.
- With automining off, sending a queue transaction does not fail: the node is assumed not to estimate its gas against the
  pending block. A node that does would make the queue loop itself throw where `Sigma` has the transaction revert unseen.
- The selectors of the timelock controller's scheduleBatch and executeBatch differ, as they must in one contract.
- Nothing else touches the ledger between tc_consolidate and tip_121a_cont (`BothPassIff`).
- In `TcConsolidateOnChain` the contracts decode calldata as the ABI specification says and tell methods apart by their
  selectors, which differ for the three token methods; a directory says which token or holder each address is.
- In `Ledger` the named accounts and tokens are pairwise distinct. Parameters are: what the Balancer vault pays out; the
  stable swap's quote and payment for an amount of ETH, and the stETH Lido mints for it; and what a vesting timelock could
  release at the time of the run. Roles are taken as granted, and the contracts of `Ledger` as unpaused.
- In `Guards` the deposits' pauses are state, and the guardian's role to unpause is a parameter. A withdrawal lowers the deposit and its market by exactly the amount; interest and rounding of the markets are
  not part of this model.
- The address map of `ProtecActions` is a list of pairs in the object's key order.
- A target without an address is looked up by name, as an arbitrary function of the name (`Debug`).
- The readings of PCV equity and of the stETH price are parameters of `Tip121aCont`.
- Titles, descriptions and signatures are UTF-8 bytes; numeric strings are numbers.

## Left out

- Impersonation, automining switches, balances given to accounts, console output, gas, and the extraction of revert messages.
- ETH sent along with calls as a balance of its own: `value` is part of a call and its effect is part of `step`.
- The proposals plugin's `addContractAction`, `_fullSimulate` and `maxActions`: only its lists and state field are modelled.
- Sigma.Simulate: the `fullSimulation` branch is the proposals plugin's `_fullSimulate`, which is not part of this model.
- Equivalence.SuccessfulCallsCompleteEverywhere: covers the three simulations, as does DistinctActionsRunAlike; for the governor see FreshProposalIsEnactedIff, whose conditions on votes and blocks have no counterpart in the others.
- TcConsolidateOnChain.BatchRunsProgram: the commands' explanatory notes are left empty; no call depends on them.
- LedgerLaws.RunConserves: TRIBE's vote checkpoints, and FEI's per-account incentives, are not tracked; stETH is a plain balance, without rebases or the rounding of its shares.
- NamedDeposits.Wrapper.RemoveDeposits: stops at a failing removal and keeps the earlier ones, as separate transactions would.
- FormatNumber.FormatNumber: works over the reals and returns the parts of the text; the printing of the number itself, and the rounding of floating point, are not modelled.
- The withdrawal guards' `setWithdrawInfo`, and duplicate deposits in their constructors.
- `Number(...)` conversions of amounts for printing in tip_121a and simulateDEBUGProposal.
- `exec`, which starts `execProposal` without waiting for it; `simulateTCProposal`, which only fills in arguments.
- `scripts/utils/merkle.ts`, deploy functions, address tables, migrations and the other proposals' `validate` functions: library wrappers, configuration, or comparisons of remote reads with literals.
