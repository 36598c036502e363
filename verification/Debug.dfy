/**
 simulateDEBUGProposal (scripts/utils/simulateDEBUGProposal.ts): one direct transaction a command,
 encoded as it is sent, stopping at the first that cannot be built or reverts.
 */
module Debug {
  import opened Bytes
  import opened Calls
  import opened Devnet
  import opened Proposals

  /** Looking an address up by name, as the provider does for a target that is no address. */
  type Names = string -> Option<address>

  /** The transaction of a command; a target without an address is sent to by its name. */
  function Send(keccak: Keccak, contracts: Contracts, book: AddressBook, names: Names, c: Command): Option<Call> {
    if c.arguments.Direct? || c.target !in contracts then None
    else
      match (Resolve(contracts[c.target], book, c), if c.target in book then Some(book[c.target]) else names(c.target))
      case (Some((f, args)), Some(to)) => Some(Call(to, c.value, Selector(keccak, f.signature) + args))
      case _ => None
  }

  function BuildSends(
    keccak: Keccak, contracts: Contracts, book: AddressBook, names: Names, cs: seq<Command>): (r: Option<seq<Call>>)
    ensures r.Some? ==> |r.value| == |cs|
  {
    if cs == [] then Some([])
    else
      match (BuildSends(keccak, contracts, book, names, cs[..|cs| - 1]),
             Send(keccak, contracts, book, names, cs[|cs| - 1]))
      case (Some(sofar), Some(call)) => Some(sofar + [call])
      case _ => None
  }

  /** Command i goes through, given that those before it did. */
  ghost predicate Sends<W>(
    env: Env<W>, w: W, contracts: Contracts, book: AddressBook, names: Names, cs: seq<Command>, i: nat)
    requires i < |cs|
  {
    var calls := BuildSends(env.keccak, contracts, book, names, cs[..i + 1]);
    calls.Some? && Fold(env.step, w, calls.value).Some?
  }

  /** The first command from i on that does not go through. */
  ghost function FirstUnsent<W>(
    env: Env<W>, w: W, contracts: Contracts, book: AddressBook, names: Names, cs: seq<Command>, i: nat): (k: nat)
    requires i <= |cs|
    ensures i <= k <= |cs|
    ensures forall j | i <= j < k :: Sends(env, w, contracts, book, names, cs, j)
    ensures k < |cs| ==> !Sends(env, w, contracts, book, names, cs, k)
    decreases |cs| - i
  {
    if i < |cs| && Sends(env, w, contracts, book, names, cs, i)
    then FirstUnsent(env, w, contracts, book, names, cs, i + 1) else i
  }

  lemma SendsNext<W>(
    env: Env<W>, w: W, contracts: Contracts, book: AddressBook, names: Names, cs: seq<Command>, i: nat,
    sofar: seq<Call>, now: W)
    requires i < |cs|
    requires BuildSends(env.keccak, contracts, book, names, cs[..i]) == Some(sofar)
             && Fold(env.step, w, sofar) == Some(now)
    ensures var call := Send(env.keccak, contracts, book, names, cs[i]);
            && (Sends(env, w, contracts, book, names, cs, i) <==> call.Some? && env.step(now, call.value).Some?)
            && (Sends(env, w, contracts, book, names, cs, i) ==>
                  && BuildSends(env.keccak, contracts, book, names, cs[..i + 1]) == Some(sofar + [call.value])
                  && Fold(env.step, w, sofar + [call.value]) == env.step(now, call.value))
  {
    assert cs[..i + 1][..i] == cs[..i];
    var call := Send(env.keccak, contracts, book, names, cs[i]);
    if call.Some? {
      FoldConcat(env.step, w, sofar, [call.value]);
    }
  }

  /** Returns how many commands went through; the contracts hold their joint effect and no more. */
  method SimulateDEBUGProposal<W>(
    net: Devnet<W>, contracts: Contracts, book: AddressBook, names: Names, cs: seq<Command>)
    returns (done: nat)
    modifies net
    ensures done == FirstUnsent(net.env, old(net.world), contracts, book, names, cs, 0)
    ensures var calls := BuildSends(net.env.keccak, contracts, book, names, cs[..done]);
            calls.Some? && Fold(net.env.step, old(net.world), calls.value) == Some(net.world)
  {
    ghost var w := net.world;
    ghost var sofar: seq<Call> := [];
    done := 0;
    while done < |cs|
      invariant done <= |cs|
      invariant BuildSends(net.env.keccak, contracts, book, names, cs[..done]) == Some(sofar)
      invariant Fold(net.env.step, w, sofar) == Some(net.world)
      invariant FirstUnsent(net.env, w, contracts, book, names, cs, 0)
             == FirstUnsent(net.env, w, contracts, book, names, cs, done)
    {
      SendsNext(net.env, w, contracts, book, names, cs, done, sofar, net.world);
      var call := Send(net.env.keccak, contracts, book, names, cs[done]);
      if call.None? {
        return;
      }
      net.MineBlock();
      match net.env.step(net.world, call.value) {
        case None => return;
        case Some(next) => net.world := next;
      }
      sofar := sofar + [call.value];
      done := done + 1;
    }
  }
}
