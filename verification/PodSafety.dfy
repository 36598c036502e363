/** What holds of pod runs: of one run, of every sequence of runs, and of the calldata they submit. */
module PodSafety {
  import opened Bytes
  import opened Abi
  import opened Calls
  import opened Calldata
  import opened Devnet
  import opened Proposals
  import opened Pod

  // ---------- One run ----------

  /** The signer may do all a run needs, and neither operation nor metadata is known yet. */
  ghost predicate PodIsNew<W>(
    env: Env<W>, roles: Roles, s: State<W>, b: Batch, signer: address, pod: word, metadata: text)
  {
    var id := BatchId(env.keccak, b);
    && s.clock.now >= 1 && metadata != []
    && signer in roles.proposers && signer in roles.executors && signer in roles.registrars
    && id !in s.timestamps && Registration(env.keccak, pod, id, metadata) !in s.registered
  }

  /**
   The run ends Done exactly when every role and check is met and every call succeeds; then it has
   the calls' joint effect and marks the operation done. Otherwise the contracts are as they were.
   A run that schedules never finds its operation not ready, and a run on a done one only waits.
   */
  lemma RunOutcome<W>(env: Env<W>, roles: Roles, s: State<W>, b: Batch, signer: address, pod: word, metadata: text)
    ensures var id := BatchId(env.keccak, b); var (r, end) := RunBatch(env, roles, s, b, signer, pod, metadata);
            && (s.clock.now >= 1 && SameLengths(b) && b.predecessor == 0 ==>
                  (r == Done <==>
                     && signer in roles.executors
                     && Fold(env.step, s.world, BatchCalls(b)).Some?
                     && (id !in s.timestamps ==>
                           && signer in roles.proposers && signer in roles.registrars
                           && metadata != [] && Registration(env.keccak, pod, id, metadata) !in s.registered)
                     && (id in s.timestamps ==>
                           DONE < s.timestamps[id] <= Increase(env.gap, s.clock, roles.minDelay).now)))
            && (r == Done ==>
                  && SameLengths(b) && Some(end.world) == Fold(env.step, s.world, BatchCalls(b))
                  && IsDone(end.timestamps, id))
            && (r != Done ==> end.world == s.world)
            && (s.clock.now >= 1 && id !in s.timestamps ==> r != NotReady)
            && (IsDone(s.timestamps, id) ==>
                  r == NotReady && end == s.(clock := Increase(env.gap, s.clock, roles.minDelay)))
  {
  }

  /** The clock after a run's execution: three blocks and the wait for a new operation, else one and the wait. */
  function ExecutedAt<W>(env: Env<W>, roles: Roles, c: Clock, isNew: bool): Clock {
    Tick(env.gap, Increase(env.gap, if isNew then Tick(env.gap, Tick(env.gap, c)) else c, roles.minDelay))
  }

  lemma {:induction false} DoneWaiting<W>(env: Env<W>, roles: Roles, s: State<W>, b: Batch, signer: address)
    requires WaitAndExecute(env, roles, s, b, signer).0 == Done
    ensures var id, at := BatchId(env.keccak, b), Tick(env.gap, Increase(env.gap, s.clock, roles.minDelay));
            && SameLengths(b) && Fold(env.step, s.world, BatchCalls(b)).Some?
            && WaitAndExecute(env, roles, s, b, signer).1 ==
               State(at, Fold(env.step, s.world, BatchCalls(b)).value, s.timestamps[id := DONE],
                     s.registered, s.log + [Executed(id, at.now)])
  {
  }

  /** A run that ends Done leaves its metadata registered, its operation done and logged, and nothing else changed. */
  lemma {:induction false} DoneLeaves<W>(
    env: Env<W>, roles: Roles, s: State<W>, b: Batch, signer: address, pod: word, metadata: text)
    requires RunBatch(env, roles, s, b, signer, pod, metadata).0 == Done
    ensures var end := RunBatch(env, roles, s, b, signer, pod, metadata).1;
            var id, isNew := BatchId(env.keccak, b), BatchId(env.keccak, b) !in s.timestamps;
            var first, last := s.clock.now + 1 + env.gap(s.clock.height), ExecutedAt(env, roles, s.clock, isNew);
            && SameLengths(b) && Fold(env.step, s.world, BatchCalls(b)).Some?
            && end == State(
                 last,
                 Fold(env.step, s.world, BatchCalls(b)).value,
                 s.timestamps[id := 1],
                 if isNew then s.registered + {env.keccak(RegisterBytes(env.keccak, pod, id, metadata)[4..])}
                 else s.registered,
                 s.log + (if isNew then [Scheduled(id, first, first + roles.minDelay)] else [])
                 + [Executed(id, last.now)])
  {
    var id := BatchId(env.keccak, b);
    RegistrationIsHashOfArguments(env.keccak, pod, id, metadata);
    if id in s.timestamps {
      DoneWaiting(env, roles, s, b, signer);
      assert s.log + [] == s.log;
    } else {
      DoneFromNew(env, roles, s, b, signer, pod, metadata);
    }
  }

  lemma {:induction false} DoneFromNew<W>(
    env: Env<W>, roles: Roles, s: State<W>, b: Batch, signer: address, pod: word, metadata: text)
    requires BatchId(env.keccak, b) !in s.timestamps
    requires RunBatch(env, roles, s, b, signer, pod, metadata).0 == Done
    ensures var id, first := BatchId(env.keccak, b), Tick(env.gap, s.clock);
            var last := ExecutedAt(env, roles, s.clock, true);
            && SameLengths(b) && Fold(env.step, s.world, BatchCalls(b)).Some?
            && RunBatch(env, roles, s, b, signer, pod, metadata).1 ==
               State(last, Fold(env.step, s.world, BatchCalls(b)).value, s.timestamps[id := DONE],
                     s.registered + {Registration(env.keccak, pod, id, metadata)},
                     s.log + [Scheduled(id, first.now, first.now + roles.minDelay)] + [Executed(id, last.now)])
  {
    var id := BatchId(env.keccak, b);
    var scheduled := Schedule(env, roles, s, signer, b, roles.minDelay).value;
    DoneWaiting(env, roles, Register(env, roles, scheduled, signer, pod, id, metadata).value, b, signer);
    var at := Tick(env.gap, s.clock).now;
    assert s.timestamps[id := at + roles.minDelay][id := DONE] == s.timestamps[id := DONE];
  }

  /** What is registered is the hash of what the registering call carries behind its selector. */
  lemma RegistrationIsHashOfArguments(keccak: Keccak, pod: word, id: word, metadata: text)
    ensures Registration(keccak, pod, id, metadata) == keccak(RegisterBytes(keccak, pod, id, metadata)[4..])
  {
    assert RegisterBytes(keccak, pod, id, metadata)[4..] == EncodeTuple([Num(pod), Num(id), Data(metadata)]);
  }

  /** Which step a run of a batch fails at: each ending happens exactly on its own condition. */
  lemma RunEndsAs<W>(env: Env<W>, roles: Roles, s: State<W>, b: Batch, signer: address, pod: word, metadata: text)
    requires s.clock.now >= 1 && SameLengths(b) && b.predecessor == 0
    ensures var id := BatchId(env.keccak, b); var (r, _) := RunBatch(env, roles, s, b, signer, pod, metadata);
            var isNew := id !in s.timestamps;
            var ready := isNew || DONE < s.timestamps[id] <= Increase(env.gap, s.clock, roles.minDelay).now;
            var isFresh := metadata != [] && Registration(env.keccak, pod, id, metadata) !in s.registered;
            var goes := signer in roles.executors && Fold(env.step, s.world, BatchCalls(b)).Some?;
            && (r == ScheduleReverted <==> isNew && signer !in roles.proposers)
            && (r == RegisterReverted <==>
                  isNew && signer in roles.proposers && !(signer in roles.registrars && isFresh))
            && (r == NotReady <==> !ready)
            && (r == ExecuteReverted <==>
                  && (isNew ==> signer in roles.proposers && signer in roles.registrars && isFresh)
                  && ready && !goes)
            && !r.NotBuilt?
  {
  }

  // ---------- Every sequence of runs ----------

  datatype Move =
    | Propose(info: Description, contracts: Contracts, book: AddressBook, signer: address, pod: word)
    | Wait(seconds: nat)

  function Play<W>(env: Env<W>, roles: Roles, s: State<W>, m: Move): State<W> {
    match m
    case Propose(info, contracts, book, signer, pod) => Run(env, roles, s, info, contracts, book, signer, pod).1
    case Wait(seconds) => s.(clock := Increase(env.gap, s.clock, seconds))
  }

  function PlayAll<W>(env: Env<W>, roles: Roles, s: State<W>, moves: seq<Move>): State<W>
    decreases |moves|
  {
    if moves == [] then s else PlayAll(env, roles, Play(env, roles, s, moves[0]), moves[1..])
  }

  /** Waiting lets the time pass, and changes nothing else. */
  lemma WaitingPasses<W>(env: Env<W>, roles: Roles, s: State<W>, seconds: nat)
    ensures var waited := Play(env, roles, s, Wait(seconds));
            && waited == s.(clock := waited.clock)
            && waited.clock.now == s.clock.now + 1 + env.gap(s.clock.height) + seconds
  {
    IncreaseLands(env.gap, s.clock, seconds);
  }

  /** When, and for when, an operation was scheduled, by the event log. */
  function Schedules(log: seq<Event>, id: word): seq<(nat, nat)> {
    if log == [] then []
    else
      var rest, last := Schedules(log[..|log| - 1], id), log[|log| - 1];
      if last.Scheduled? && last.id == id then rest + [(last.at, last.readyAt)] else rest
  }

  /** When an operation was executed, by the event log. */
  function Executions(log: seq<Event>, id: word): seq<nat> {
    if log == [] then []
    else
      var rest, last := Executions(log[..|log| - 1], id), log[|log| - 1];
      if last.Executed? && last.id == id then rest + [last.at] else rest
  }

  /** The log and the timestamp of one operation agree: unset, pending or done. */
  ghost predicate Consistent(roles: Roles, timestamps: map<word, nat>, log: seq<Event>, id: word) {
    var ss, es := Schedules(log, id), Executions(log, id);
    if id !in timestamps then ss == [] && es == []
    else
      && |ss| == 1 && ss[0].1 >= ss[0].0 + roles.minDelay
      && (if timestamps[id] == DONE then |es| == 1 && es[0] >= ss[0].1
          else es == [] && timestamps[id] == ss[0].1)
  }

  ghost predicate Inv<W>(roles: Roles, s: State<W>) {
    s.clock.now >= 1 && forall id: word :: Consistent(roles, s.timestamps, s.log, id)
  }

  lemma ScheduleKeepsInv<W>(env: Env<W>, roles: Roles, s: State<W>, sender: address, b: Batch, delay: nat)
    requires Inv(roles, s) && Schedule(env, roles, s, sender, b, delay).Some?
    ensures Inv(roles, Schedule(env, roles, s, sender, b, delay).value)
  {
    var next := Schedule(env, roles, s, sender, b, delay).value;
    forall id: word ensures Consistent(roles, next.timestamps, next.log, id) {
      assert Consistent(roles, s.timestamps, s.log, id);
      assert next.log[..|next.log| - 1] == s.log;
    }
  }

  lemma ExecuteKeepsInv<W>(env: Env<W>, roles: Roles, s: State<W>, sender: address, b: Batch)
    requires Inv(roles, s) && Execute(env, roles, s, sender, b).Some?
    ensures Inv(roles, Execute(env, roles, s, sender, b).value)
  {
    var next := Execute(env, roles, s, sender, b).value;
    forall id: word ensures Consistent(roles, next.timestamps, next.log, id) {
      assert Consistent(roles, s.timestamps, s.log, id);
      assert next.log[..|next.log| - 1] == s.log;
    }
  }

  lemma WaitAndExecuteKeepsInv<W>(env: Env<W>, roles: Roles, s: State<W>, b: Batch, signer: address)
    requires Inv(roles, s)
    ensures Inv(roles, WaitAndExecute(env, roles, s, b, signer).1)
  {
    var waited := s.(clock := Increase(env.gap, s.clock, roles.minDelay));
    assert Inv(roles, waited);
    assert Inv(roles, Reverted(env, waited));
    if Execute(env, roles, waited, signer, b).Some? {
      ExecuteKeepsInv(env, roles, waited, signer, b);
    }
  }

  lemma RunBatchKeepsInv<W>(
    env: Env<W>, roles: Roles, s: State<W>, b: Batch, signer: address, pod: word, metadata: text)
    requires Inv(roles, s)
    ensures Inv(roles, RunBatch(env, roles, s, b, signer, pod, metadata).1)
  {
    var id := BatchId(env.keccak, b);
    if id in s.timestamps {
      WaitAndExecuteKeepsInv(env, roles, s, b, signer);
    } else {
      match Schedule(env, roles, s, signer, b, roles.minDelay)
      case None =>
      case Some(scheduled) =>
        ScheduleKeepsInv(env, roles, s, signer, b, roles.minDelay);
        match Register(env, roles, scheduled, signer, pod, id, metadata)
        case None =>
        case Some(registered) =>
          assert Inv(roles, registered);
          WaitAndExecuteKeepsInv(env, roles, registered, b, signer);
    }
  }

  lemma {:induction false} PlayAllKeepsInv<W>(env: Env<W>, roles: Roles, s: State<W>, moves: seq<Move>)
    requires Inv(roles, s)
    ensures Inv(roles, PlayAll(env, roles, s, moves))
    decreases |moves|
  {
    if moves != [] {
      match moves[0] {
        case Wait(_) =>
        case Propose(info, contracts, book, signer, pod) =>
          match BuildEntries(env.keccak, contracts, book, info.commands)
          case Failure(_) =>
          case Success(calls) =>
            RunBatchKeepsInv(env, roles, s, BatchOfCalls(calls, env.keccak(info.title)), signer, pod, info.description);
      }
      PlayAllKeepsInv(env, roles, Play(env, roles, s, moves[0]), moves[1..]);
    }
  }

  /**
   From a fresh controller, whatever proposals are run and however time passes: every operation
   is scheduled at most once and executed at most once, and no execution comes before its ready
   time, which is at least the minimum delay after scheduling.
   */
  lemma PodRunsAreSafe<W>(env: Env<W>, roles: Roles, s: State<W>, moves: seq<Move>, id: word)
    requires s.clock.now >= 1 && s.timestamps == map[] && s.log == []
    ensures var log := PlayAll(env, roles, s, moves).log;
            && |Schedules(log, id)| <= 1 && |Executions(log, id)| <= 1
            && (Executions(log, id) != [] ==>
                  && |Schedules(log, id)| == 1
                  && Executions(log, id)[0] >= Schedules(log, id)[0].1 >= Schedules(log, id)[0].0 + roles.minDelay)
  {
    PlayAllKeepsInv(env, roles, s, moves);
    assert Consistent(roles, PlayAll(env, roles, s, moves).timestamps, PlayAll(env, roles, s, moves).log, id);
  }

  // ---------- Off-chain ids ----------

  /** A command list builds for a pod exactly when it builds for the DAO and all its targets have addresses. */
  lemma {:induction false} EntriesBuildIff(keccak: Keccak, contracts: Contracts, book: AddressBook, cs: seq<Command>)
    ensures BuildEntries(keccak, contracts, book, cs).Success? <==>
              && BuildActions(contracts, book, cs).Success?
              && forall i | 0 <= i < |cs| :: cs[i].target in book
  {
    if cs != [] {
      EntriesBuildIff(keccak, contracts, book, cs[1..]);
      assert forall i | 1 <= i < |cs| :: cs[i] == cs[1..][i - 1];
      assert cs == [cs[0]] + cs[1..];
    }
  }

  /** The contract objects and the address book name the same addresses. */
  predicate AddressesAgree(contracts: Contracts, book: AddressBook, cs: seq<Command>) {
    forall i | 0 <= i < |cs| ::
      cs[i].target in contracts && cs[i].target in book && contracts[cs[i].target].at == book[cs[i].target]
  }

  lemma {:induction false} EntriesAreCallsIff(keccak: Keccak, contracts: Contracts, book: AddressBook, cs: seq<Command>)
    requires BuildEntries(keccak, contracts, book, cs).Success? && BuildActions(contracts, book, cs).Success?
    ensures BuildEntries(keccak, contracts, book, cs).value == CallsOf(keccak, BuildActions(contracts, book, cs).value)
            <==> AddressesAgree(contracts, book, cs)
  {
    if cs != [] {
      var entry, entries := BuildEntry(keccak, contracts, book, cs[0]).value,
                            BuildEntries(keccak, contracts, book, cs[1..]).value;
      var action, actions := BuildAction(contracts, book, cs[0]).value, BuildActions(contracts, book, cs[1..]).value;
      EntriesAreCallsIff(keccak, contracts, book, cs[1..]);
      assert CallsOf(keccak, [action] + actions) == [CallOf(keccak, action)] + CallsOf(keccak, actions);
      assert [entry] + entries == [CallOf(keccak, action)] + CallsOf(keccak, actions)
        <==> entry == CallOf(keccak, action) && entries == CallsOf(keccak, actions) by {
        HeadTail(entry, entries, CallOf(keccak, action), CallsOf(keccak, actions));
      }
      assert forall i | 1 <= i < |cs| :: cs[i] == cs[1..][i - 1];
      assert AddressesAgree(contracts, book, cs) <==>
        contracts[cs[0].target].at == book[cs[0].target] && AddressesAgree(contracts, book, cs[1..]);
    }
  }

  lemma HeadTail<T>(a: T, s: seq<T>, b: T, t: seq<T>)
    ensures [a] + s == [b] + t <==> a == b && s == t
  {
    if [a] + s == [b] + t {
      assert ([a] + s)[0] == ([b] + t)[0] && ([a] + s)[1..] == ([b] + t)[1..];
      assert ([a] + s)[1..] == s && ([b] + t)[1..] == t;
    }
  }

  /** The batch hashed off chain is the batch a simulation schedules, exactly when addresses agree. */
  lemma OfflineBatchIsSimulatedIff(keccak: Keccak, contracts: Contracts, book: AddressBook, info: Description)
    requires BuildEntries(keccak, contracts, book, info.commands).Success?
    requires BuildActions(contracts, book, info.commands).Success?
    ensures var offline := PodBatch(keccak, BuildActions(contracts, book, info.commands).value, info.title);
            var simulated := BatchOfCalls(BuildEntries(keccak, contracts, book, info.commands).value,
                                          keccak(info.title));
            offline == simulated <==> AddressesAgree(contracts, book, info.commands)
  {
    var actions := BuildActions(contracts, book, info.commands).value;
    var entries := BuildEntries(keccak, contracts, book, info.commands).value;
    EntriesAreCallsIff(keccak, contracts, book, info.commands);
    var offline, simulated := PodBatch(keccak, actions, info.title), BatchOfCalls(entries, keccak(info.title));
    assert BatchCalls(offline) == CallsOf(keccak, actions);
    if entries == CallsOf(keccak, actions) {
      assert offline == simulated;
    }
  }

  /** So the two ids agree when the addresses do, and otherwise only by a keccak256 collision. */
  lemma OfflineIdIsSimulatedId(keccak: Keccak, contracts: Contracts, book: AddressBook, info: Description)
    requires BuildEntries(keccak, contracts, book, info.commands).Success?
    requires BuildActions(contracts, book, info.commands).Success?
    ensures var offline := PodBatch(keccak, BuildActions(contracts, book, info.commands).value, info.title);
            var simulated := BatchOfCalls(BuildEntries(keccak, contracts, book, info.commands).value,
                                          keccak(info.title));
            && (AddressesAgree(contracts, book, info.commands) ==>
                  BatchId(keccak, offline) == BatchId(keccak, simulated))
            && (Fits(BatchVals(offline)) && BatchId(keccak, offline) == BatchId(keccak, simulated) ==>
                  || AddressesAgree(contracts, book, info.commands)
                  || Collision(keccak, EncodeTuple(BatchVals(offline)), EncodeTuple(BatchVals(simulated))))
  {
    OfflineBatchIsSimulatedIff(keccak, contracts, book, info);
    var offline := PodBatch(keccak, BuildActions(contracts, book, info.commands).value, info.title);
    var simulated := BatchOfCalls(BuildEntries(keccak, contracts, book, info.commands).value, keccak(info.title));
    if Fits(BatchVals(offline)) && BatchId(keccak, offline) == BatchId(keccak, simulated) {
      BatchIdDetermines(keccak, offline, simulated);
    }
  }

  // ---------- Submitted calldata ----------

  /** A transaction to the timelock controller, the metadata registry or the pod executor. */
  function SendToTimelock<W>(
    env: Env<W>, roles: Roles, s: State<W>, sender: address, data: seq<byte>): Option<State<W>>
  {
    match TimelockReceives(env.keccak, data)
    case None => None
    case Some(ScheduleCall(b, delay)) => Schedule(env, roles, s, sender, b, delay)
    case Some(ExecuteCall(b)) => Execute(env, roles, s, sender, b)
  }

  function SendToRegistry<W>(
    env: Env<W>, roles: Roles, s: State<W>, sender: address, data: seq<byte>): Option<State<W>>
  {
    match RegistryReceives(env.keccak, data)
    case None => None
    case Some((pod, id, metadata)) => Register(env, roles, s, sender, pod, id, metadata)
  }

  /** The pod executor passes the batch on to the timelock it is given. */
  function SendToPodExecutor<W>(
    env: Env<W>, roles: Roles, s: State<W>, executor: address, timelock: address, data: seq<byte>): Option<State<W>>
  {
    match PodExecutorReceives(env.keccak, data)
    case None => None
    case Some((at, b)) => if at == timelock then Execute(env, roles, s, executor, b) else None
  }

  /** Nothing is in the way of a batch: all roles are granted, it is new, its calls succeed, and all of it fits. */
  ghost predicate MayGoThrough<W>(
    env: Env<W>, roles: Roles, s: State<W>, b: Batch, pod: PodConfig, metadata: text,
    proposer: address, registrar: address, executor: address)
  {
    && AllFit(env.keccak, b, pod, metadata) && TimelockSelectorsApart(env.keccak)
    && s.clock.now >= 1 && SameLengths(b) && b.predecessor == 0 && metadata != []
    && proposer in roles.proposers && registrar in roles.registrars && executor in roles.executors
    && roles.minDelay <= SCHEDULE_DELAY
    && BatchId(env.keccak, b) !in s.timestamps
    && Registration(env.keccak, pod.id, BatchId(env.keccak, b), metadata) !in s.registered
    && Fold(env.step, s.world, BatchCalls(b)).Some?
  }

  lemma {:induction false} BatchGoesThrough<W>(
    env: Env<W>, roles: Roles, s: State<W>, b: Batch, pod: PodConfig, metadata: text,
    proposer: address, registrar: address, executor: address)
    requires MayGoThrough(env, roles, s, b, pod, metadata, proposer, registrar, executor)
    ensures var id := BatchId(env.keccak, b);
            var scheduled := Schedule(env, roles, s, proposer, b, SCHEDULE_DELAY);
            && scheduled.Some?
            && var registered := Register(env, roles, scheduled.value, registrar, pod.id, id, metadata);
               && registered.Some?
               && var waited := registered.value.(clock := Increase(env.gap, registered.value.clock, SCHEDULE_DELAY));
                  var end := Execute(env, roles, waited, executor, b);
                  && end.Some?
                  && end.value.timestamps == s.timestamps[id := DONE]
                  && end.value.registered == s.registered + {Registration(env.keccak, pod.id, id, metadata)}
                  && Some(end.value.world) == Fold(env.step, s.world, BatchCalls(b))
  {
    var id := BatchId(env.keccak, b);
    var scheduled := Schedule(env, roles, s, proposer, b, SCHEDULE_DELAY).value;
    assert scheduled.timestamps[id := DONE] == s.timestamps[id := DONE];
  }

  /**
   Sent to their contracts as printed: the schedule calldata is accepted, then the metadata calldata, and
   four days later either the pod-execute or the execute calldata carries the calls out. What is done is
   the operation that the metadata calldata registers, and both leave the same chain.
   */
  lemma {:induction false} SubmittedCalldataConsumesItsOperation<W>(
    env: Env<W>, roles: Roles, s: State<W>, b: Batch, pod: PodConfig, metadata: text,
    proposer: address, registrar: address, executor: address)
    returns (schedule: seq<byte>, register: seq<byte>, execute: seq<byte>, podExecute: seq<byte>)
    requires MayGoThrough(env, roles, s, b, pod, metadata, proposer, registrar, executor)
    ensures var s := Labelled(CalldatasOf(env.keccak, b, pod, metadata));
            && Printed(s, "Calldata: ") == Some(schedule) && Printed(s, "Metadata Calldata: ") == Some(register)
            && Printed(s, "Execute Calldata: ") == Some(execute)
            && Printed(s, "Pod Executor Calldata: ") == Some(podExecute)
    ensures var scheduled := SendToTimelock(env, roles, s, proposer, schedule);
            && |execute| >= 4 && |register| >= 4
            && scheduled.Some?
            && var registered := SendToRegistry(env, roles, scheduled.value, registrar, register);
               && registered.Some?
               && var waited := registered.value.(clock := Increase(env.gap, registered.value.clock, 4 * 24 * 60 * 60));
                  var end := SendToPodExecutor(env, roles, waited, executor, pod.timelock, podExecute);
                  && end.Some? && end == SendToTimelock(env, roles, waited, executor, execute)
                  && end.value.timestamps == s.timestamps[env.keccak(execute[4..]) := DONE]
                  && end.value.registered == s.registered + {env.keccak(register[4..])}
                  && Some(end.value.world) == Fold(env.step, s.world, BatchCalls(b))
  {
    schedule, register, execute, podExecute := PodCalldatasDescribeOneOperation(env.keccak, b, pod, metadata);
    PrintedBytes(env.keccak, b, pod, metadata);
    IdIsHashOfExecuteArguments(env.keccak, b);
    RegistrationIsHashOfArguments(env.keccak, pod.id, BatchId(env.keccak, b), metadata);
    BatchGoesThrough(env, roles, s, b, pod, metadata, proposer, registrar, executor);
  }
}
