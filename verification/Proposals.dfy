/**
 Proposal descriptions (types/types.ts) and their compilation into parallel lists of targets,
 values, signatures and argument encodings (scripts/utils/constructProposal.ts).
 */
module Proposals {
  import opened Bytes
  import opened Abi
  import opened Calls
  import opened Hex

  type AddressBook = map<string, address>

  /** A method of a contract's interface: its canonical signature and input types. */
  datatype Fragment = Fragment(signature: text, inputs: seq<Ty>)

  datatype Contract = Contract(at: address, methods: map<string, Fragment>)

  type Contracts = map<string, Contract>

  /** A function of the address book, or (in older proposals) a fixed list, which is refused. */
  datatype Arguments = Template(make: AddressBook -> seq<Val>) | Direct(items: seq<string>)

  datatype Command = Command(target: string, value: word, entry: string, arguments: Arguments, note: text)

  datatype Description = Description(title: text, commands: seq<Command>, description: text)

  datatype BuildError =
    | UnknownContract(target: string)
    | UnknownAddress(target: string)
    | NoArgumentsFunction(target: string)
    | BadCall(target: string)

  /** One action of a proposal; the arguments are encoded without a selector. */
  datatype Action = Action(target: address, value: word, signature: text, args: seq<byte>)

  /** The fragment and argument encoding of a command, when its contract accepts both. */
  function Resolve(contract: Contract, book: AddressBook, c: Command): Option<(Fragment, seq<byte>)>
    requires c.arguments.Template?
  {
    if c.entry !in contract.methods then None
    else
      var fragment := contract.methods[c.entry];
      var args := c.arguments.make(book);
      if HaveTypes(args, fragment.inputs) then Some((fragment, EncodeTuple(args))) else None
  }

  function BuildAction(contracts: Contracts, book: AddressBook, c: Command): Result<Action, BuildError> {
    if c.arguments.Direct? then Failure(NoArgumentsFunction(c.target))
    else if c.target !in contracts then Failure(UnknownContract(c.target))
    else
      match Resolve(contracts[c.target], book, c)
      case None => Failure(BadCall(c.target))
      case Some((f, args)) => Success(Action(contracts[c.target].at, c.value, f.signature, args))
  }

  /** The actions of a command list, or the error of its first bad command. */
  function BuildActions(contracts: Contracts, book: AddressBook, cs: seq<Command>): (r: Result<seq<Action>, BuildError>)
    ensures r.Success? ==> |r.value| == |cs|
  {
    if cs == [] then Success([])
    else
      match BuildAction(contracts, book, cs[0])
      case Failure(e) => Failure(e)
      case Success(a) =>
        match BuildActions(contracts, book, cs[1..])
        case Failure(e) => Failure(e)
        case Success(rest) => Success([a] + rest)
  }

  lemma {:induction false} BuildActionsAt(contracts: Contracts, book: AddressBook, cs: seq<Command>, i: nat)
    requires i < |cs| && BuildActions(contracts, book, cs).Success?
    ensures BuildAction(contracts, book, cs[i]) == Success(BuildActions(contracts, book, cs).value[i])
  {
    if i > 0 {
      BuildActionsAt(contracts, book, cs[1..], i - 1);
    }
  }

  /** The first bad command decides the whole list; a good one adds its action to its prefix's. */
  lemma {:induction false} BuildActionsNext(contracts: Contracts, book: AddressBook, cs: seq<Command>, i: nat)
    requires i < |cs| && BuildActions(contracts, book, cs[..i]).Success?
    ensures match BuildAction(contracts, book, cs[i])
            case Failure(e) => BuildActions(contracts, book, cs) == Failure(e)
            case Success(a) =>
              BuildActions(contracts, book, cs[..i + 1]) == Success(BuildActions(contracts, book, cs[..i]).value + [a])
  {
    if i > 0 {
      assert cs[..i][1..] == cs[1..][..i - 1] && cs[..i + 1][1..] == cs[1..][..i];
      BuildActionsNext(contracts, book, cs[1..], i - 1);
      var first, next := BuildAction(contracts, book, cs[0]), BuildAction(contracts, book, cs[i]);
      var rest := BuildActions(contracts, book, cs[1..][..i - 1]);
      if first.Success? && next.Success? {
        assert [first.value] + (rest.value + [next.value]) == ([first.value] + rest.value) + [next.value];
      }
    } else {
      assert cs[..1][1..] == [];
      var first := BuildAction(contracts, book, cs[0]);
      if first.Success? {
        var none: seq<Action> := [];
        assert [first.value] + none == none + [first.value];
      }
    }
  }

  /** The calldata of an action: its selector spliced onto its arguments. */
  function Payload(keccak: Keccak, a: Action): seq<byte> {
    Selector(keccak, a.signature) + a.args
  }

  function CallOf(keccak: Keccak, a: Action): Call {
    Call(a.target, a.value, Payload(keccak, a))
  }

  function CallsOf(keccak: Keccak, actions: seq<Action>): (calls: seq<Call>)
    ensures |calls| == |actions|
  {
    seq(|actions|, i requires 0 <= i < |actions| => CallOf(keccak, actions[i]))
  }

  datatype InternalState = Unsubmitted | Simulated

  /** SigmaProposal: the lists grow by one entry an action; argument encodings are hex strings. */
  class SigmaProposal {
    var targets: seq<address>
    var values: seq<word>
    var signatures: seq<text>
    var calldatas: seq<string>
    var description: text
    var internalState: InternalState

    ghost predicate Valid()
      reads this
    {
      && |targets| == |values| == |signatures| == |calldatas|
      && forall i | 0 <= i < |calldatas| ::
           Arrayify(calldatas[i]).Some? && Hexlify(Arrayify(calldatas[i]).value) == calldatas[i]
    }

    ghost function Actions(): (actions: seq<Action>)
      requires Valid()
      reads this
      ensures |actions| == |targets|
    {
      seq(|targets|, i requires 0 <= i < |targets| reads this requires Valid() =>
        Action(targets[i], values[i], signatures[i], Arrayify(calldatas[i]).value))
    }

    constructor ()
      ensures Valid() && Actions() == [] && internalState == Unsubmitted
    {
      targets, values, signatures, calldatas := [], [], [], [];
      description, internalState := [], Unsubmitted;
    }

    method AddContractAction(contract: Contract, fragment: Fragment, args: seq<byte>, value: word)
      requires Valid()
      modifies this
      ensures Valid()
      ensures Actions() == old(Actions()) + [Action(contract.at, value, fragment.signature, args)]
      ensures description == old(description) && internalState == old(internalState)
    {
      ArrayifyHexlify(args);
      targets, values := targets + [contract.at], values + [value];
      signatures, calldatas := signatures + [fragment.signature], calldatas + [Hexlify(args)];
    }
  }

  const NEWLINE: text := Ascii("\n")

  /** Stops at the first bad command; otherwise one action a command, in order. */
  method ConstructProposal(info: Description, contracts: Contracts, book: AddressBook)
    returns (r: Result<SigmaProposal, BuildError>)
    ensures r.Success? ==>
              && fresh(r.value) && r.value.Valid() && r.value.internalState == Unsubmitted
              && BuildActions(contracts, book, info.commands) == Success(r.value.Actions())
              && r.value.description == info.title + [10] + info.description
    ensures r.Failure? ==> BuildActions(contracts, book, info.commands) == Failure(r.error)
  {
    var proposal := new SigmaProposal();
    var cs := info.commands;
    for i := 0 to |cs|
      invariant fresh(proposal) && proposal.Valid() && proposal.internalState == Unsubmitted
      invariant BuildActions(contracts, book, cs[..i]) == Success(proposal.Actions())
    {
      var c := cs[i];
      BuildActionsNext(contracts, book, cs, i);
      if c.arguments.Direct? {
        return Failure(NoArgumentsFunction(c.target));
      }
      if c.target !in contracts {
        return Failure(UnknownContract(c.target));
      }
      var resolved := Resolve(contracts[c.target], book, c);
      if resolved.None? {
        return Failure(BadCall(c.target));
      }
      proposal.AddContractAction(contracts[c.target], resolved.value.0, resolved.value.1, c.value);
    }
    ghost var actions := proposal.Actions();
    assert cs[..|cs|] == cs;
    proposal.description := info.title + NEWLINE + info.description;
    assert proposal.Actions() == actions;
    r := Success(proposal);
  }
}
