/**
 tc_consolidate from its templated commands to its ledger: the contracts decode the calls that the
 commands compile to, and the pod simulation of the proposal runs the ledger program.
 */
module TcConsolidateOnChain {
  import opened Abi
  import opened Bytes
  import opened Calldata
  import opened Calls
  import Net = Devnet
  import opened L = Ledger
  import P = Proposals
  import Pod
  import PodSafety
  import Tc = TcConsolidate

  const BURN: text := Ascii("burn(uint256)")
  const CLAWBACK: text := Ascii("clawback()")
  const APPROVE: text := Ascii("approve(address,uint256)")
  const TRANSFER: text := Ascii("transfer(address,uint256)")

  /** The four methods' signatures are their names with their parameter types. */
  lemma MethodSignatures()
    ensures BURN == Signature("burn", [Uint256]) && CLAWBACK == Signature("clawback", [])
    ensures APPROVE == Signature("approve", [Address, Uint256])
    ensures TRANSFER == Signature("transfer", [Address, Uint256])
  {
    assert "burn(uint256)" == "burn" + "(" + "uint256" + ")" && "clawback()" == "clawback" + "(" + "" + ")";
    PairSignatures();
  }

  lemma PairSignatures()
    ensures APPROVE == Signature("approve", [Address, Uint256])
    ensures TRANSFER == Signature("transfer", [Address, Uint256])
  {
    assert [Address, Uint256][1..] == [Uint256];
    assert TypeNames([Address, Uint256]) == "address,uint256";
    assert "approve(address,uint256)" == "approve" + "(" + "address,uint256" + ")";
    assert "transfer(address,uint256)" == "transfer" + "(" + "address,uint256" + ")";
  }

  // ---------- The contracts' side ----------

  /** Which addresses are tokens, and which holder an address is. */
  datatype Directory = Directory(tokens: map<address, Token>, accounts: map<address, Account>)

  function AmountOf(d: Directory, data: seq<byte>): Option<nat> {
    match DecodeCall([Uint256], data)
    case Some(vs) => if |vs| == 1 && vs[0].Num? then Some(vs[0].n) else None
    case None => None
  }

  function AccountAndAmount(d: Directory, data: seq<byte>): Option<(Account, nat)> {
    match DecodeCall([Address, Uint256], data)
    case Some(vs) =>
      if |vs| == 2 && vs[0].Num? && vs[1].Num? && vs[0].n < ADDRESSES && vs[0].n in d.accounts
      then Some((d.accounts[vs[0].n], vs[1].n)) else None
    case None => None
  }

  /** A token or a timelock tells its methods apart by their selectors, and takes no ETH. */
  function Understood(keccak: Keccak, d: Directory, c: Call): Option<Command> {
    if |c.data| < 4 || c.value != 0 then None
    else
      var selector := c.data[..4];
      if c.target in d.tokens then
        var t := d.tokens[c.target];
        if t == Fei && selector == Selector(keccak, BURN) then
          (match AmountOf(d, c.data) case Some(n) => Some(BurnCommand(n)) case None => None)
        else if selector == Selector(keccak, APPROVE) then
          (match AccountAndAmount(d, c.data) case Some((a, n)) => Some(ApproveCommand(t, a, n)) case None => None)
        else if selector == Selector(keccak, TRANSFER) then
          (match AccountAndAmount(d, c.data) case Some((a, n)) => Some(TransferCommand(t, a, n)) case None => None)
        else None
      else if c.target in d.accounts && selector == Selector(keccak, CLAWBACK) then
        Some(Clawback(d.accounts[c.target]))
      else None
  }

  /** What is understood is a call without ETH whose data starts with the selector of the command's method. */
  lemma UnderstoodMeans(keccak: Keccak, d: Directory, call: Call)
    requires Understood(keccak, d, call).Some?
    ensures call.value == 0 && |call.data| >= 4
    ensures var selector := call.data[..4];
            match Understood(keccak, d, call).value
            case BurnCommand(_) =>
              call.target in d.tokens && d.tokens[call.target] == Fei && selector == Selector(keccak, BURN)
            case ApproveCommand(t, _, _) =>
              call.target in d.tokens && d.tokens[call.target] == t && selector == Selector(keccak, APPROVE)
            case TransferCommand(t, _, _) =>
              call.target in d.tokens && d.tokens[call.target] == t && selector == Selector(keccak, TRANSFER)
            case Clawback(lock) =>
              call.target in d.accounts && d.accounts[call.target] == lock && selector == Selector(keccak, CLAWBACK)
            case _ => false
  {
  }

  /** One call's effect on the ledger. */
  function LedgerStep(keccak: Keccak, d: Directory, env: Env): Calls.Step<Ledger> {
    (l: Ledger, c: Call) =>
      match Understood(keccak, d, c)
      case None => None
      case Some(command) => L.Step(env, l, command)
  }

  /** Calls that are understood as a list of commands have that list's effect. */
  lemma {:induction false} CallsRunCommands(
    keccak: Keccak, d: Directory, env: Env, l: Ledger, calls: seq<Call>, cs: seq<Command>)
    requires |calls| == |cs|
    requires forall i | 0 <= i < |cs| :: Understood(keccak, d, calls[i]) == Some(cs[i])
    ensures Fold(LedgerStep(keccak, d, env), l, calls) == Run(env, l, cs)
    decreases |cs|
  {
    if cs != [] {
      assert Understood(keccak, d, calls[0]) == Some(cs[0]);
      match L.Step(env, l, cs[0])
      case None =>
      case Some(next) =>
        assert forall i | 0 <= i < |cs| - 1 :: calls[1..][i] == calls[i + 1] && cs[1..][i] == cs[i + 1];
        CallsRunCommands(keccak, d, env, next, calls[1..], cs[1..]);
    }
  }

  // ---------- The proposal's side ----------

  const NO_NOTE: text := []

  function Amount(n: nat): P.Arguments {
    P.Template(book => [Num(n)])
  }

  function AddressAndAmount(name: string, n: nat): P.Arguments {
    P.Template((book: P.AddressBook) => if name in book then [Num(book[name]), Num(n)] else [])
  }

  function Nothing(): P.Arguments {
    P.Template(book => [])
  }

  /** The description's eight commands, for one token or lock each. */
  const COMMANDS: seq<P.Command> := [
    P.Command("fei", 0, "burn(uint256)", Amount(Tc.TC_FEI_TO_BURN), NO_NOTE),
    P.Command("newRariInfraFeiTimelock", 0, "clawback()", Nothing(), NO_NOTE),
    P.Command("newRariInfraTribeTimelock", 0, "clawback()", Nothing(), NO_NOTE),
    P.Command("fei", 0, "approve(address,uint256)",
              AddressAndAmount("feiDAOTimelock", Tc.CLAWED_BACK_FEI_UPPER_BOUND), NO_NOTE),
    P.Command("tribe", 0, "approve(address,uint256)",
              AddressAndAmount("feiDAOTimelock", Tc.CLAWED_BACK_TRIBE_UPPER_BOUND), NO_NOTE),
    P.Command("idle", 0, "transfer(address,uint256)",
              AddressAndAmount("tribalCouncilSafe", Tc.TC_IDLE_BALANCE), NO_NOTE),
    P.Command("lqty", 0, "transfer(address,uint256)",
              AddressAndAmount("feiDAOTimelock", Tc.TC_LQTY_BALANCE), NO_NOTE),
    P.Command("fox", 0, "transfer(address,uint256)",
              AddressAndAmount("feiDAOTimelock", Tc.TC_FOX_BALANCE), NO_NOTE)]

  const TITLE: text := Ascii("TIP-122: End Rari team vesting and consolidate Tribal Council assets")

  /** A target with one of its methods, at an address of the book. */
  ghost predicate Offers(
    contracts: P.Contracts, book: P.AddressBook, name: string, entry: string, signature: text, inputs: seq<Ty>)
  {
    && name in contracts && name in book && entry in contracts[name].methods
    && contracts[name].methods[entry] == P.Fragment(signature, inputs)
  }

  ghost predicate IsToken(
    contracts: P.Contracts, book: P.AddressBook, d: Directory, name: string, entry: string, signature: text, t: Token)
  {
    && Offers(contracts, book, name, entry, signature, [Address, Uint256])
    && book[name] in d.tokens && d.tokens[book[name]] == t
  }

  ghost predicate IsLock(contracts: P.Contracts, book: P.AddressBook, d: Directory, name: string, lock: Account) {
    && Offers(contracts, book, name, "clawback()", CLAWBACK, [])
    && book[name] !in d.tokens && book[name] in d.accounts && d.accounts[book[name]] == lock
  }

  ghost predicate IsHolder(book: P.AddressBook, d: Directory, name: string, a: Account) {
    name in book && book[name] in d.accounts && d.accounts[book[name]] == a
  }

  /** Interfaces, address book and directory describe one deployment. */
  ghost predicate Deployed(contracts: P.Contracts, book: P.AddressBook, d: Directory) {
    && Offers(contracts, book, "fei", "burn(uint256)", BURN, [Uint256])
    && IsToken(contracts, book, d, "fei", "approve(address,uint256)", APPROVE, Fei)
    && IsToken(contracts, book, d, "tribe", "approve(address,uint256)", APPROVE, Tribe)
    && IsToken(contracts, book, d, "idle", "transfer(address,uint256)", TRANSFER, Idle)
    && IsToken(contracts, book, d, "lqty", "transfer(address,uint256)", TRANSFER, Lqty)
    && IsToken(contracts, book, d, "fox", "transfer(address,uint256)", TRANSFER, Fox)
    && IsLock(contracts, book, d, "newRariInfraFeiTimelock", RariInfraFeiTimelock)
    && IsLock(contracts, book, d, "newRariInfraTribeTimelock", RariInfraTribeTimelock)
    && IsHolder(book, d, "feiDAOTimelock", FeiDAOTimelock)
    && IsHolder(book, d, "tribalCouncilSafe", TribalCouncilSafe)
  }

  /** The token methods have different selectors. */
  ghost predicate SelectorsApart(keccak: Keccak) {
    && Selector(keccak, BURN) != Selector(keccak, APPROVE)
    && Selector(keccak, BURN) != Selector(keccak, TRANSFER)
    && Selector(keccak, APPROVE) != Selector(keccak, TRANSFER)
  }

  // ---------- Each command arrives as it was meant ----------

  lemma {:induction false} WordsAreShort(vs: seq<Val>)
    requires forall i | 0 <= i < |vs| :: vs[i].Num?
    ensures Tails(vs) == []
  {
    if vs != [] {
      WordsAreShort(vs[1..]);
    }
  }

  lemma SelectorLeads(keccak: Keccak, signature: text, args: seq<Val>)
    ensures |EncodeCall(keccak, signature, args)| >= 4
    ensures EncodeCall(keccak, signature, args)[..4] == Selector(keccak, signature)
  {
  }

  lemma BurnArrives(keccak: Keccak, d: Directory, at: address, n: word)
    requires at in d.tokens && d.tokens[at] == Fei
    ensures Understood(keccak, d, Call(at, 0, EncodeCall(keccak, BURN, [Num(n)]))) == Some(BurnCommand(n))
  {
    WordsAreShort([Num(n)]);
    SelectorLeads(keccak, BURN, [Num(n)]);
    CallRoundTrip(keccak, BURN, [Num(n)], [Uint256]);
  }

  lemma ClawbackArrives(keccak: Keccak, d: Directory, at: address)
    requires at !in d.tokens && at in d.accounts
    ensures Understood(keccak, d, Call(at, 0, EncodeCall(keccak, CLAWBACK, []))) == Some(Clawback(d.accounts[at]))
  {
    SelectorLeads(keccak, CLAWBACK, []);
  }

  lemma PairArrives(keccak: Keccak, d: Directory, signature: text, a: address, n: word)
    requires a in d.accounts
    ensures AccountAndAmount(d, EncodeCall(keccak, signature, [Num(a), Num(n)])) == Some((d.accounts[a], n))
  {
    WordsAreShort([Num(a), Num(n)]);
    CallRoundTrip(keccak, signature, [Num(a), Num(n)], [Address, Uint256]);
  }

  lemma ApproveArrives(keccak: Keccak, d: Directory, at: address, a: address, n: word)
    requires SelectorsApart(keccak) && at in d.tokens && a in d.accounts
    ensures Understood(keccak, d, Call(at, 0, EncodeCall(keccak, APPROVE, [Num(a), Num(n)])))
         == Some(ApproveCommand(d.tokens[at], d.accounts[a], n))
  {
    SelectorLeads(keccak, APPROVE, [Num(a), Num(n)]);
    PairArrives(keccak, d, APPROVE, a, n);
  }

  lemma TransferArrives(keccak: Keccak, d: Directory, at: address, a: address, n: word)
    requires SelectorsApart(keccak) && at in d.tokens && a in d.accounts
    ensures Understood(keccak, d, Call(at, 0, EncodeCall(keccak, TRANSFER, [Num(a), Num(n)])))
         == Some(TransferCommand(d.tokens[at], d.accounts[a], n))
  {
    SelectorLeads(keccak, TRANSFER, [Num(a), Num(n)]);
    PairArrives(keccak, d, TRANSFER, a, n);
  }

  /** A command compiles to a call that the contracts understand as a step of the ledger program. */
  ghost predicate Means(
    keccak: Keccak, contracts: P.Contracts, book: P.AddressBook, d: Directory, c: P.Command, step: Command)
  {
    var entry := Pod.BuildEntry(keccak, contracts, book, c);
    entry.Success? && Understood(keccak, d, entry.value) == Some(step)
  }

  ghost predicate Arrives(keccak: Keccak, contracts: P.Contracts, book: P.AddressBook, d: Directory, i: nat)
    requires i < |COMMANDS|
  {
    Means(keccak, contracts, book, d, COMMANDS[i], Tc.CONSOLIDATION[i])
  }

  lemma BurnCommandArrives(keccak: Keccak, contracts: P.Contracts, book: P.AddressBook, d: Directory)
    requires Deployed(contracts, book, d)
    ensures Arrives(keccak, contracts, book, d, 0)
  {
    BurnArrives(keccak, d, book["fei"], Tc.TC_FEI_TO_BURN);
  }

  lemma ClawbacksArrive(keccak: Keccak, contracts: P.Contracts, book: P.AddressBook, d: Directory)
    requires Deployed(contracts, book, d)
    ensures Arrives(keccak, contracts, book, d, 1) && Arrives(keccak, contracts, book, d, 2)
  {
    ClawbackArrives(keccak, d, book["newRariInfraFeiTimelock"]);
    ClawbackArrives(keccak, d, book["newRariInfraTribeTimelock"]);
  }

  /** A token command compiles to a call of its token with a holder and an amount. */
  lemma {:induction false} TokenEntry(
    keccak: Keccak, contracts: P.Contracts, book: P.AddressBook, name: string, entry: string, signature: text,
    holder: string, n: word)
    requires Offers(contracts, book, name, entry, signature, [Address, Uint256]) && holder in book
    ensures Pod.BuildEntry(keccak, contracts, book, P.Command(name, 0, entry, AddressAndAmount(holder, n), NO_NOTE)) ==
            Success(Call(book[name], 0, EncodeCall(keccak, signature, [Num(book[holder]), Num(n)])))
  {
  }

  lemma {:induction false} ApprovalsArrive(
    keccak: Keccak, contracts: P.Contracts, book: P.AddressBook, d: Directory)
    requires Deployed(contracts, book, d) && SelectorsApart(keccak)
    ensures Arrives(keccak, contracts, book, d, 3) && Arrives(keccak, contracts, book, d, 4)
  {
    var entry, holder := "approve(address,uint256)", "feiDAOTimelock";
    TokenEntry(keccak, contracts, book, "fei", entry, APPROVE, holder, Tc.CLAWED_BACK_FEI_UPPER_BOUND);
    TokenEntry(keccak, contracts, book, "tribe", entry, APPROVE, holder, Tc.CLAWED_BACK_TRIBE_UPPER_BOUND);
    ApproveArrives(keccak, d, book["fei"], book[holder], Tc.CLAWED_BACK_FEI_UPPER_BOUND);
    ApproveArrives(keccak, d, book["tribe"], book[holder], Tc.CLAWED_BACK_TRIBE_UPPER_BOUND);
  }

  lemma {:induction false} PaymentsArrive(
    keccak: Keccak, contracts: P.Contracts, book: P.AddressBook, d: Directory)
    requires Deployed(contracts, book, d) && SelectorsApart(keccak)
    ensures Arrives(keccak, contracts, book, d, 5)
    ensures Arrives(keccak, contracts, book, d, 6) && Arrives(keccak, contracts, book, d, 7)
  {
    var entry, safe, dao := "transfer(address,uint256)", "tribalCouncilSafe", "feiDAOTimelock";
    TokenEntry(keccak, contracts, book, "idle", entry, TRANSFER, safe, Tc.TC_IDLE_BALANCE);
    TokenEntry(keccak, contracts, book, "lqty", entry, TRANSFER, dao, Tc.TC_LQTY_BALANCE);
    TokenEntry(keccak, contracts, book, "fox", entry, TRANSFER, dao, Tc.TC_FOX_BALANCE);
    TransferArrives(keccak, d, book["idle"], book[safe], Tc.TC_IDLE_BALANCE);
    TransferArrives(keccak, d, book["lqty"], book[dao], Tc.TC_LQTY_BALANCE);
    TransferArrives(keccak, d, book["fox"], book[dao], Tc.TC_FOX_BALANCE);
  }

  lemma {:induction false} CommandArrives(
    keccak: Keccak, contracts: P.Contracts, book: P.AddressBook, d: Directory, i: nat)
    requires i < |COMMANDS| && Deployed(contracts, book, d) && SelectorsApart(keccak)
    ensures Arrives(keccak, contracts, book, d, i)
  {
    match i
    case 0 => BurnCommandArrives(keccak, contracts, book, d);
    case 1 => ClawbacksArrive(keccak, contracts, book, d);
    case 2 => ClawbacksArrive(keccak, contracts, book, d);
    case 3 => ApprovalsArrive(keccak, contracts, book, d);
    case 4 => ApprovalsArrive(keccak, contracts, book, d);
    case _ => PaymentsArrive(keccak, contracts, book, d);
  }

  lemma {:induction false} EntriesFrom(
    keccak: Keccak, contracts: P.Contracts, book: P.AddressBook, cs: seq<P.Command>)
    requires forall i | 0 <= i < |cs| :: Pod.BuildEntry(keccak, contracts, book, cs[i]).Success?
    ensures var r := Pod.BuildEntries(keccak, contracts, book, cs);
            && r.Success?
            && forall i | 0 <= i < |cs| :: Success(r.value[i]) == Pod.BuildEntry(keccak, contracts, book, cs[i])
  {
    if cs != [] {
      EntriesFrom(keccak, contracts, book, cs[1..]);
      assert forall i | 0 < i < |cs| :: cs[i] == cs[1..][i - 1];
    }
  }

  /** Commands that each mean a step compile to calls that have the steps' joint effect. */
  lemma CompiledProgramRuns(
    keccak: Keccak, contracts: P.Contracts, book: P.AddressBook, d: Directory, env: Env, l: Ledger,
    cs: seq<P.Command>, program: seq<Command>)
    requires |cs| == |program|
    requires forall i | 0 <= i < |cs| :: Means(keccak, contracts, book, d, cs[i], program[i])
    ensures var calls := Pod.BuildEntries(keccak, contracts, book, cs);
            calls.Success? && Fold(LedgerStep(keccak, d, env), l, calls.value) == Run(env, l, program)
  {
    forall i | 0 <= i < |cs|
      ensures Pod.BuildEntry(keccak, contracts, book, cs[i]).Success?
    {
      assert Means(keccak, contracts, book, d, cs[i], program[i]);
    }
    EntriesFrom(keccak, contracts, book, cs);
    var calls := Pod.BuildEntries(keccak, contracts, book, cs).value;
    forall i | 0 <= i < |cs|
      ensures Understood(keccak, d, calls[i]) == Some(program[i])
    {
      assert Means(keccak, contracts, book, d, cs[i], program[i]);
    }
    CallsRunCommands(keccak, d, env, l, calls, program);
  }

  /** The compiled batch does to the ledger what the ledger program does. */
  lemma BatchRunsProgram(
    keccak: Keccak, contracts: P.Contracts, book: P.AddressBook, d: Directory, env: Env, l: Ledger)
    requires Deployed(contracts, book, d) && SelectorsApart(keccak)
    ensures var calls := Pod.BuildEntries(keccak, contracts, book, COMMANDS);
            calls.Success? && Fold(LedgerStep(keccak, d, env), l, calls.value) == Run(env, l, Tc.CONSOLIDATION)
  {
    forall i | 0 <= i < |COMMANDS|
      ensures Means(keccak, contracts, book, d, COMMANDS[i], Tc.CONSOLIDATION[i])
    {
      CommandArrives(keccak, contracts, book, d, i);
    }
    CompiledProgramRuns(keccak, contracts, book, d, env, l, COMMANDS, Tc.CONSOLIDATION);
  }

  // ---------- The pod simulation of the proposal ----------

  function ChainEnv(keccak: Keccak, gap: Net.Gap, emptyQuantity: bool, d: Directory, env: Env): Net.Env<Ledger> {
    Net.Env(keccak, gap, LedgerStep(keccak, d, env), emptyQuantity)
  }

  /**
   Simulated through the pod, as a new operation with a trusted signer, the proposal completes exactly
   when its ledger program can run, and then meets its own validate exactly from exact assets.
   */
  lemma PodRunConsolidatesIff(
    keccak: Keccak, gap: Net.Gap, emptyQuantity: bool, d: Directory, env: Env,
    contracts: P.Contracts, book: P.AddressBook, roles: Pod.Roles, s: Pod.State<Ledger>,
    signer: address, pod: word, metadata: text)
    requires Deployed(contracts, book, d) && SelectorsApart(keccak) && Tc.Stage(env)
    requires Pod.BuildEntries(keccak, contracts, book, COMMANDS).Success? ==>
               var calls := Pod.BuildEntries(keccak, contracts, book, COMMANDS).value;
               PodSafety.PodIsNew(ChainEnv(keccak, gap, emptyQuantity, d, env), roles, s,
                                  Pod.BatchOfCalls(calls, keccak(TITLE)), signer, pod, metadata)
    ensures var info := P.Description(TITLE, COMMANDS, metadata);
            var (r, end) := Pod.Run(ChainEnv(keccak, gap, emptyQuantity, d, env), roles, s, info,
                                    contracts, book, signer, pod);
            && (r == Pod.Done <==> Tc.CanConsolidate(env, s.world))
            && (r == Pod.Done ==> Tc.ConsolidatedTo(env, s.world, end.world))
            && (r == Pod.Done && Tc.Passes(Supply(s.world, Fei), end.world) <==>
                  Tc.CanBurnAndClawBack(env, s.world) && Tc.ExactAssets(s.world))
  {
    BatchRunsProgram(keccak, contracts, book, d, env, s.world);
    var calls := Pod.BuildEntries(keccak, contracts, book, COMMANDS).value;
    var b := Pod.BatchOfCalls(calls, keccak(TITLE));
    PodSafety.RunOutcome(ChainEnv(keccak, gap, emptyQuantity, d, env), roles, s, b, signer, pod, metadata);
    Tc.ConsolidationEffect(env, s.world);
    Tc.ValidatedIffExact(env, s.world);
  }
}
