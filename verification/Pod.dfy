/**
 simulatePodProposal (scripts/utils/simulateTimelockProposal.ts) over OpenZeppelin's
 TimelockController 4.7.3 and contracts/pods/GovernanceMetadataRegistry.sol.
 */
module Pod {
  import opened Bytes
  import opened Abi
  import opened Calls
  import opened Calldata
  import opened Devnet
  import opened Proposals

  const DONE: nat := 1

  datatype Event = Scheduled(id: word, at: nat, readyAt: nat) | Executed(id: word, at: nat)

  /** Fixed for a run: the controller's minimum delay and the accounts with each role. */
  datatype Roles = Roles(minDelay: nat, proposers: set<address>, executors: set<address>, registrars: set<address>)

  /** The chain as a pod proposal sees it; the log holds the controller's events. */
  datatype State<!W> = State(
    clock: Clock,
    world: W,
    timestamps: map<word, nat>,
    registered: set<word>,
    log: seq<Event>)

  datatype Outcome =
    | NotBuilt(error: BuildError)
    | ScheduleReverted
    | RegisterReverted
    | ExecuteReverted
    | NotReady
    | Done

  // ---------- The contracts ----------

  function BatchCalls(b: Batch): (calls: seq<Call>)
    requires |b.targets| == |b.values| == |b.payloads|
    ensures |calls| == |b.targets|
  {
    seq(|b.targets|, i requires 0 <= i < |b.targets| => Call(b.targets[i], b.values[i], b.payloads[i]))
  }

  predicate SameLengths(b: Batch) {
    |b.targets| == |b.values| == |b.payloads|
  }

  predicate IsReady(timestamps: map<word, nat>, id: word, now: nat) {
    id in timestamps && DONE < timestamps[id] <= now
  }

  predicate IsDone(timestamps: map<word, nat>, id: word) {
    id in timestamps && timestamps[id] == DONE
  }

  /** scheduleBatch, in a block of its own. */
  function Schedule<W>(
    env: Env<W>, roles: Roles, s: State<W>, sender: address, b: Batch, delay: nat): Option<State<W>>
  {
    var id := BatchId(env.keccak, b);
    var clock := Tick(env.gap, s.clock);
    if sender in roles.proposers && SameLengths(b) && id !in s.timestamps && delay >= roles.minDelay then
      Some(s.(clock := clock,
              timestamps := s.timestamps[id := clock.now + delay],
              log := s.log + [Scheduled(id, clock.now, clock.now + delay)]))
    else None
  }

  /** executeBatch, in a block of its own: all the calls or none. */
  function Execute<W>(env: Env<W>, roles: Roles, s: State<W>, sender: address, b: Batch): Option<State<W>> {
    var id := BatchId(env.keccak, b);
    var clock := Tick(env.gap, s.clock);
    if sender in roles.executors && SameLengths(b) && IsReady(s.timestamps, id, clock.now)
       && (b.predecessor == 0 || IsDone(s.timestamps, b.predecessor)) then
      match Fold(env.step, s.world, BatchCalls(b))
      case None => None
      case Some(w) =>
        Some(s.(clock := clock, world := w,
                timestamps := s.timestamps[id := DONE], log := s.log + [Executed(id, clock.now)]))
    else None
  }

  /** The registry keeps hashes. */
  function Registration(keccak: Keccak, pod: word, id: word, metadata: text): word {
    keccak(EncodeTuple([Num(pod), Num(id), Data(metadata)]))
  }

  /** registerProposal, in a block of its own. */
  function Register<W>(
    env: Env<W>, roles: Roles, s: State<W>, sender: address, pod: word, id: word, metadata: text): Option<State<W>>
  {
    if sender in roles.registrars && metadata != [] && Registration(env.keccak, pod, id, metadata) !in s.registered then
      Some(s.(clock := Tick(env.gap, s.clock),
              registered := s.registered + {Registration(env.keccak, pod, id, metadata)}))
    else None
  }

  /** A reverted transaction still takes a block. */
  function Reverted<W>(env: Env<W>, s: State<W>): State<W> {
    s.(clock := Tick(env.gap, s.clock))
  }

  // ---------- The batch ----------

  /** One command's entry: unlike constructProposal, the target comes from the address book. */
  function BuildEntry(keccak: Keccak, contracts: Contracts, book: AddressBook, c: Command): Result<Call, BuildError> {
    if c.target !in contracts then Failure(UnknownContract(c.target))
    else if c.target !in book then Failure(UnknownAddress(c.target))
    else if c.arguments.Direct? then Failure(NoArgumentsFunction(c.target))
    else
      match Resolve(contracts[c.target], book, c)
      case None => Failure(BadCall(c.target))
      case Some((f, args)) => Success(Call(book[c.target], c.value, Selector(keccak, f.signature) + args))
  }

  function BuildEntries(
    keccak: Keccak, contracts: Contracts, book: AddressBook, cs: seq<Command>): (r: Result<seq<Call>, BuildError>)
    ensures r.Success? ==> |r.value| == |cs|
  {
    if cs == [] then Success([])
    else
      match BuildEntry(keccak, contracts, book, cs[0])
      case Failure(e) => Failure(e)
      case Success(call) =>
        match BuildEntries(keccak, contracts, book, cs[1..])
        case Failure(e) => Failure(e)
        case Success(rest) => Success([call] + rest)
  }

  function BatchOfCalls(calls: seq<Call>, salt: word): (b: Batch)
    ensures SameLengths(b) && BatchCalls(b) == calls
  {
    Batch(seq(|calls|, i requires 0 <= i < |calls| => calls[i].target),
          seq(|calls|, i requires 0 <= i < |calls| => calls[i].value),
          seq(|calls|, i requires 0 <= i < |calls| => calls[i].data),
          0, salt)
  }

  // ---------- A whole run ----------

  function Run<W>(
    env: Env<W>, roles: Roles, s: State<W>, info: Description, contracts: Contracts, book: AddressBook,
    signer: address, pod: word)
    : (Outcome, State<W>)
  {
    match BuildEntries(env.keccak, contracts, book, info.commands)
    case Failure(e) => (NotBuilt(e), s)
    case Success(calls) =>
      RunBatch(env, roles, s, BatchOfCalls(calls, env.keccak(info.title)), signer, pod, info.description)
  }

  function RunBatch<W>(
    env: Env<W>, roles: Roles, s: State<W>, b: Batch, signer: address, pod: word, metadata: text): (Outcome, State<W>)
  {
    var id := BatchId(env.keccak, b);
    if id in s.timestamps then WaitAndExecute(env, roles, s, b, signer)
    else
      match Schedule(env, roles, s, signer, b, roles.minDelay)
      case None => (ScheduleReverted, Reverted(env, s))
      case Some(scheduled) =>
        match Register(env, roles, scheduled, signer, pod, id, metadata)
        case None => (RegisterReverted, Reverted(env, scheduled))
        case Some(registered) => WaitAndExecute(env, roles, registered, b, signer)
  }

  function WaitAndExecute<W>(env: Env<W>, roles: Roles, s: State<W>, b: Batch, signer: address): (Outcome, State<W>) {
    var id := BatchId(env.keccak, b);
    var waited := s.(clock := Increase(env.gap, s.clock, roles.minDelay));
    if IsReady(waited.timestamps, id, waited.clock.now) && !IsDone(waited.timestamps, id) then
      match Execute(env, roles, waited, signer, b)
      case None => (ExecuteReverted, Reverted(env, waited))
      case Some(executed) => (Done, executed)
    else (NotReady, waited)
  }

  // ---------- The driver on objects ----------

  /** The timelock controller and the metadata registry, on one chain. */
  class Controller<W> {
    const net: Devnet<W>
    const roles: Roles
    var timestamps: map<word, nat>
    var registered: set<word>
    var log: seq<Event>

    constructor (net: Devnet<W>, roles: Roles)
      ensures this.net == net && this.roles == roles
      ensures timestamps == map[] && registered == {} && log == []
    {
      this.net, this.roles := net, roles;
      timestamps, registered, log := map[], {}, [];
    }

    ghost function View(): State<W>
      reads this, net
    {
      State(net.clock, net.world, timestamps, registered, log)
    }

    /** Each call takes a block; a revert changes nothing else. */
    method ScheduleBatch(sender: address, b: Batch, delay: nat) returns (ok: bool)
      modifies this, net`clock
      ensures var next := Schedule(net.env, roles, old(View()), sender, b, delay);
              ok == next.Some? && View() == if ok then next.value else Reverted(net.env, old(View()))
    {
      net.MineBlock();
      var id := BatchId(net.env.keccak, b);
      ok := sender in roles.proposers && SameLengths(b) && id !in timestamps && delay >= roles.minDelay;
      if ok {
        timestamps := timestamps[id := net.clock.now + delay];
        log := log + [Scheduled(id, net.clock.now, net.clock.now + delay)];
      }
    }

    method RegisterProposal(sender: address, pod: word, id: word, metadata: text) returns (ok: bool)
      modifies this, net`clock
      ensures var next := Register(net.env, roles, old(View()), sender, pod, id, metadata);
              ok == next.Some? && View() == if ok then next.value else Reverted(net.env, old(View()))
    {
      net.MineBlock();
      ok := sender in roles.registrars && metadata != []
            && Registration(net.env.keccak, pod, id, metadata) !in registered;
      if ok {
        registered := registered + {Registration(net.env.keccak, pod, id, metadata)};
      }
    }

    method ExecuteBatch(sender: address, b: Batch) returns (ok: bool)
      modifies this, net`clock, net`world
      ensures var next := Execute(net.env, roles, old(View()), sender, b);
              ok == next.Some? && View() == if ok then next.value else Reverted(net.env, old(View()))
    {
      net.MineBlock();
      var id := BatchId(net.env.keccak, b);
      ok := sender in roles.executors && SameLengths(b) && IsReady(timestamps, id, net.clock.now)
            && (b.predecessor == 0 || IsDone(timestamps, b.predecessor));
      if ok {
        var world := net.world;
        var calls := BatchCalls(b);
        var i := 0;
        while ok && i < |calls|
          invariant i <= |calls|
          invariant Fold(net.env.step, net.world, calls) == if ok then Fold(net.env.step, world, calls[i..]) else None
        {
          assert calls[i..][1..] == calls[i + 1..];
          match net.env.step(world, calls[i])
          case None => ok := false;
          case Some(next) => world := next;
          i := i + 1;
        }
        if ok {
          net.world := world;
          timestamps := timestamps[id := DONE];
          log := log + [Executed(id, net.clock.now)];
        }
      }
    }
  }

  lemma {:induction false} BuildEntriesNext(
    keccak: Keccak, contracts: Contracts, book: AddressBook, cs: seq<Command>, i: nat)
    requires i < |cs| && BuildEntries(keccak, contracts, book, cs[..i]).Success?
    ensures match BuildEntry(keccak, contracts, book, cs[i])
            case Failure(e) => BuildEntries(keccak, contracts, book, cs) == Failure(e)
            case Success(call) =>
              BuildEntries(keccak, contracts, book, cs[..i + 1])
              == Success(BuildEntries(keccak, contracts, book, cs[..i]).value + [call])
  {
    var first, next := BuildEntry(keccak, contracts, book, cs[0]), BuildEntry(keccak, contracts, book, cs[i]);
    if i > 0 {
      assert cs[..i][1..] == cs[1..][..i - 1] && cs[..i + 1][1..] == cs[1..][..i];
      BuildEntriesNext(keccak, contracts, book, cs[1..], i - 1);
      var rest := BuildEntries(keccak, contracts, book, cs[1..][..i - 1]);
      if first.Success? && next.Success? {
        assert [first.value] + (rest.value + [next.value]) == ([first.value] + rest.value) + [next.value];
      }
    } else {
      assert cs[..1][1..] == [];
      if first.Success? {
        var none: seq<Call> := [];
        assert [first.value] + none == none + [first.value];
      }
    }
  }

  /** Fills the three lists, one command at a time, up to the first bad command. */
  method BuildBatch(
    keccak: Keccak, info: Description, contracts: Contracts, book: AddressBook)
    returns (r: Result<Batch, BuildError>)
    ensures r == match BuildEntries(keccak, contracts, book, info.commands)
                 case Failure(e) => Failure(e)
                 case Success(calls) => Success(BatchOfCalls(calls, keccak(info.title)))
  {
    var targets: seq<address>, values: seq<word>, datas: seq<seq<byte>> := [], [], [];
    var cs, salt := info.commands, keccak(info.title);
    ghost var entries: seq<Call> := [];
    for i := 0 to |cs|
      invariant BuildEntries(keccak, contracts, book, cs[..i]) == Success(entries)
      invariant Batch(targets, values, datas, 0, salt) == BatchOfCalls(entries, salt)
    {
      var c := cs[i];
      BuildEntriesNext(keccak, contracts, book, cs, i);
      if c.target !in contracts {
        return Failure(UnknownContract(c.target));
      }
      if c.target !in book {
        return Failure(UnknownAddress(c.target));
      }
      if c.arguments.Direct? {
        return Failure(NoArgumentsFunction(c.target));
      }
      var resolved := Resolve(contracts[c.target], book, c);
      if resolved.None? {
        return Failure(BadCall(c.target));
      }
      targets, values := targets + [book[c.target]], values + [c.value];
      datas := datas + [Selector(keccak, resolved.value.0.signature) + resolved.value.1];
      entries := entries + [BuildEntry(keccak, contracts, book, c).value];
    }
    assert cs[..|cs|] == cs;
    r := Success(Batch(targets, values, datas, 0, salt));
  }

  method SimulatePodProposal<W>(
    timelock: Controller<W>, signer: address, info: Description, contracts: Contracts, book: AddressBook,
    pod: PodConfig)
    returns (r: Outcome)
    modifies timelock, timelock.net`clock, timelock.net`world
    ensures (r, timelock.View()) ==
            Run(timelock.net.env, timelock.roles, old(timelock.View()), info, contracts, book, signer, pod.id)
  {
    var delay := timelock.roles.minDelay;
    var built := BuildBatch(timelock.net.env.keccak, info, contracts, book);
    if built.Failure? {
      return NotBuilt(built.error);
    }
    var b := built.value;
    var id := BatchId(timelock.net.env.keccak, b);
    if id !in timelock.timestamps {
      var scheduled := timelock.ScheduleBatch(signer, b, delay);
      if !scheduled {
        return ScheduleReverted;
      }
      var registered := timelock.RegisterProposal(signer, pod.id, id, info.description);
      if !registered {
        return RegisterReverted;
      }
    }
    timelock.net.IncreaseTime(delay);
    if IsReady(timelock.timestamps, id, timelock.net.clock.now) && !IsDone(timelock.timestamps, id) {
      var executed := timelock.ExecuteBatch(signer, b);
      r := if executed then Done else ExecuteReverted;
    } else {
      r := NotReady;
    }
  }
}
