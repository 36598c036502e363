/**
 execProposal (scripts/utils/exec.ts) over the governor lifecycle of contracts/dao/governor
 (FeiDAO.sol on OpenZeppelin's Governor 4.7.3; GovernorAlpha.sol is its in-tree ancestor).
 */
module Governor {
  import opened Bytes
  import opened Calls
  import opened Devnet
  import opened Timelock

  datatype Phase = Pending | Active | Canceled | Defeated | Succeeded | Queued | Expired | Executed

  datatype Proposal = Proposal(
    calls: seq<Call>,
    startBlock: nat,
    endBlock: nat,
    forVotes: nat,
    againstVotes: nat,
    voters: set<address>,
    eta: nat,
    canceled: bool,
    executed: bool)

  /** Fixed for a run: the governor's address and quorum, votes at the snapshot, the timelock's rules. */
  datatype Charter<!W> = Charter(env: Env<W>, rules: Rules, governor: address, quorum: nat, weight: address -> nat)

  datatype State<!W> = State(clock: Clock, world: W, queued: set<word>, p: Proposal)

  datatype Ending = VoteReverted | AdvanceThrew | QueueReverted | ExecuteReverted | Enacted

  /** The governor's state function, in a block of a given height and time. */
  function PhaseAt(quorum: nat, p: Proposal, height: nat, now: nat): Phase {
    if p.executed then Executed
    else if p.canceled then Canceled
    else if height <= p.startBlock then Pending
    else if height <= p.endBlock then Active
    else if p.forVotes <= p.againstVotes || p.forVotes < quorum then Defeated
    else if p.eta == 0 then Succeeded
    else if now >= p.eta + GRACE_PERIOD then Expired
    else Queued
  }

  /** The timelock transactions of a proposal: the calldata is whole, so the signature is empty. */
  function TimelockTxs(calls: seq<Call>, eta: nat): (txs: seq<Tx>)
    ensures |txs| == |calls|
  {
    seq(|calls|, i requires 0 <= i < |calls| => Tx(calls[i].target, calls[i].value, [], calls[i].data, eta))
  }

  /** castVote in support, in a block of its own. */
  function CastVote<W>(g: Charter<W>, s: State<W>, voter: address): Option<State<W>> {
    var clock := Tick(g.env.gap, s.clock);
    if PhaseAt(g.quorum, s.p, clock.height, clock.now) == Active && voter !in s.p.voters then
      Some(s.(clock := clock, p := s.p.(forVotes := s.p.forVotes + g.weight(voter), voters := s.p.voters + {voter})))
    else None
  }

  /** Queues the transactions one by one; any that is refused, or queued already, refuses them all. */
  function QueueEach<W>(g: Charter<W>, queued: set<word>, txs: seq<Tx>, now: nat): Option<set<word>>
    decreases |txs|
  {
    if txs == [] then Some(queued)
    else
      var slot := TxHash(g.env.keccak, txs[0]);
      if slot in queued || !MayQueue(g.rules, g.governor, txs[0].eta, now) then None
      else QueueEach(g, queued + {slot}, txs[1..], now)
  }

  function QueueProposal<W>(g: Charter<W>, s: State<W>): Option<State<W>> {
    var clock := Tick(g.env.gap, s.clock);
    var eta := clock.now + g.rules.delay;
    if PhaseAt(g.quorum, s.p, clock.height, clock.now) != Succeeded then None
    else
      match QueueEach(g, s.queued, TimelockTxs(s.p.calls, eta), clock.now)
      case None => None
      case Some(queued) => Some(s.(clock := clock, queued := queued, p := s.p.(eta := eta)))
  }

  function ExecuteEach<W>(g: Charter<W>, queued: set<word>, w: W, txs: seq<Tx>, now: nat): Option<(set<word>, W)> {
    if txs == [] then Some((queued, w))
    else if !MayExecute(g.env.keccak, g.rules, queued, g.governor, txs[0], now) then None
    else
      match g.env.step(w, TxCall(g.env.keccak, txs[0]))
      case None => None
      case Some(next) => ExecuteEach(g, queued - {TxHash(g.env.keccak, txs[0])}, next, txs[1..], now)
  }

  function ExecuteProposal<W>(g: Charter<W>, s: State<W>): Option<State<W>> {
    var clock := Tick(g.env.gap, s.clock);
    var phase := PhaseAt(g.quorum, s.p, clock.height, clock.now);
    if (phase != Succeeded && phase != Queued) || s.p.eta == 0 then None
    else
      match ExecuteEach(g, s.queued, s.world, TimelockTxs(s.p.calls, s.p.eta), clock.now)
      case None => None
      case Some((queued, w)) => Some(s.(clock := clock, world := w, queued := queued, p := s.p.(executed := true)))
  }

  const JUMP: nat := 200000

  /** execProposal */
  function Drive<W>(g: Charter<W>, s: State<W>, voter: address): (Ending, State<W>) {
    if s.clock.height < s.p.startBlock then
      match AdvanceBlockTo(g.env, s.clock, s.p.startBlock)
      case None => (AdvanceThrew, s)
      case Some(c) => FromStart(g, s.(clock := c), voter)
    else FromStart(g, s, voter)
  }

  function FromStart<W>(g: Charter<W>, s: State<W>, voter: address): (Ending, State<W>) {
    if s.clock.height < s.p.endBlock then
      match CastVote(g, s, voter)
      case None => (VoteReverted, s.(clock := Tick(g.env.gap, s.clock)))
      case Some(voted) => AfterVote(g, voted)
    else Finish(g, s)
  }

  function AfterVote<W>(g: Charter<W>, s: State<W>): (Ending, State<W>) {
    match AdvanceBlockTo(g.env, s.clock, s.p.endBlock)
    case None => (AdvanceThrew, s)
    case Some(c) =>
      var ended := s.(clock := c);
      match QueueProposal(g, ended)
      case None => (QueueReverted, ended.(clock := Tick(g.env.gap, c)))
      case Some(queued) => Finish(g, queued)
  }

  function Finish<W>(g: Charter<W>, s: State<W>): (Ending, State<W>) {
    var waited := s.(clock := Increase(g.env.gap, s.clock, JUMP));
    match ExecuteProposal(g, waited)
    case None => (ExecuteReverted, waited.(clock := Tick(g.env.gap, waited.clock)))
    case Some(executed) => (Enacted, executed)
  }

  // ---------- The driver on objects ----------

  class Governor<W> {
    const charter: Charter<W>
    const timelock: Timelock<W>
    var p: Proposal

    ghost predicate Valid()
      reads this, timelock
    {
      timelock.net.env == charter.env && timelock.rules == charter.rules
    }

    ghost function View(): State<W>
      reads this, timelock, timelock.net
    {
      State(timelock.net.clock, timelock.net.world, timelock.queued, p)
    }

    constructor (charter: Charter<W>, timelock: Timelock<W>, p: Proposal)
      requires timelock.net.env == charter.env && timelock.rules == charter.rules
      ensures Valid() && this.charter == charter && this.timelock == timelock && this.p == p
    {
      this.charter, this.timelock, this.p := charter, timelock, p;
    }

    method Vote(voter: address) returns (ok: bool)
      requires Valid()
      modifies this`p, timelock.net`clock
      ensures Valid()
      ensures var next := CastVote(charter, old(View()), voter);
              && ok == next.Some?
              && View() == if ok then next.value else old(View()).(clock := Tick(charter.env.gap, old(View()).clock))
    {
      timelock.net.MineBlock();
      var clock := timelock.net.clock;
      ok := PhaseAt(charter.quorum, p, clock.height, clock.now) == Active && voter !in p.voters;
      if ok {
        p := p.(forVotes := p.forVotes + charter.weight(voter), voters := p.voters + {voter});
      }
    }

    method Queue() returns (ok: bool)
      requires Valid()
      modifies this`p, timelock.net`clock, timelock`queued
      ensures Valid()
      ensures var next := QueueProposal(charter, old(View()));
              && ok == next.Some?
              && View() == if ok then next.value else old(View()).(clock := Tick(charter.env.gap, old(View()).clock))
    {
      timelock.net.MineBlock();
      var clock := timelock.net.clock;
      var eta := clock.now + charter.rules.delay;
      if PhaseAt(charter.quorum, p, clock.height, clock.now) != Succeeded {
        return false;
      }
      var txs := TimelockTxs(p.calls, eta);
      var queued := timelock.queued;
      for i := 0 to |txs|
        invariant QueueEach(charter, timelock.queued, txs, clock.now) == QueueEach(charter, queued, txs[i..], clock.now)
      {
        assert txs[i..][1..] == txs[i + 1..];
        var slot := TxHash(charter.env.keccak, txs[i]);
        if slot in queued || !MayQueue(charter.rules, charter.governor, txs[i].eta, clock.now) {
          return false;
        }
        queued := queued + {slot};
      }
      timelock.queued := queued;
      p := p.(eta := eta);
      ok := true;
    }

    method Execute() returns (ok: bool)
      requires Valid()
      modifies this`p, timelock.net`clock, timelock.net`world, timelock`queued
      ensures Valid()
      ensures var next := ExecuteProposal(charter, old(View()));
              && ok == next.Some?
              && View() == if ok then next.value else old(View()).(clock := Tick(charter.env.gap, old(View()).clock))
    {
      timelock.net.MineBlock();
      var clock := timelock.net.clock;
      var phase := PhaseAt(charter.quorum, p, clock.height, clock.now);
      if (phase != Succeeded && phase != Queued) || p.eta == 0 {
        return false;
      }
      var txs := TimelockTxs(p.calls, p.eta);
      var queued, world := timelock.queued, timelock.net.world;
      for i := 0 to |txs|
        invariant ExecuteEach(charter, timelock.queued, timelock.net.world, txs, clock.now)
               == ExecuteEach(charter, queued, world, txs[i..], clock.now)
      {
        assert txs[i..][1..] == txs[i + 1..];
        if !MayExecute(charter.env.keccak, charter.rules, queued, charter.governor, txs[i], clock.now) {
          return false;
        }
        match charter.env.step(world, TxCall(charter.env.keccak, txs[i]))
        case None => return false;
        case Some(next) =>
          queued, world := queued - {TxHash(charter.env.keccak, txs[i])}, next;
      }
      timelock.queued, timelock.net.world := queued, world;
      p := p.(executed := true);
      ok := true;
    }

    method ExecProposal(voter: address) returns (r: Ending)
      requires Valid()
      modifies this`p, timelock.net`clock, timelock.net`world, timelock`queued
      ensures Valid()
      ensures (r, View()) == Drive(charter, old(View()), voter)
    {
      if timelock.net.clock.height < p.startBlock {
        var ok := AdvanceTo(p.startBlock);
        if !ok {
          return AdvanceThrew;
        }
      }
      if timelock.net.clock.height < p.endBlock {
        var voted := Vote(voter);
        if !voted {
          return VoteReverted;
        }
        var ok := AdvanceTo(p.endBlock);
        if !ok {
          return AdvanceThrew;
        }
        var queued := Queue();
        if !queued {
          return QueueReverted;
        }
      }
      timelock.net.IncreaseTime(JUMP);
      var executed := Execute();
      r := if executed then Enacted else ExecuteReverted;
    }

    method AdvanceTo(height: nat) returns (ok: bool)
      requires Valid()
      modifies timelock.net`clock
      ensures Valid()
      ensures match AdvanceBlockTo(charter.env, old(timelock.net.clock), height)
              case None => !ok && timelock.net.clock == old(timelock.net.clock)
              case Some(c) => ok && timelock.net.clock == c
    {
      var advanced := AdvanceBlockTo(charter.env, timelock.net.clock, height);
      ok := advanced.Some?;
      if ok {
        timelock.net.clock := advanced.value;
      }
    }
  }
}
