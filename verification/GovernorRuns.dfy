/** When execProposal enacts a proposal, from every entry block. */
module GovernorRuns {
  import opened Bytes
  import opened Calls
  import opened Devnet
  import opened Timelock
  import opened Governor

  lemma SlotsOfHead(keccak: Keccak, txs: seq<Tx>)
    requires txs != []
    ensures Slots(keccak, txs) == {TxHash(keccak, txs[0])} + Slots(keccak, txs[1..])
    ensures DistinctSlots(keccak, txs) <==>
              TxHash(keccak, txs[0]) !in Slots(keccak, txs[1..]) && DistinctSlots(keccak, txs[1..])
  {
    var rest := txs[1..];
    assert forall i | 0 < i < |txs| :: txs[i] == rest[i - 1];
    forall i | 0 <= i < |rest| ensures TxHash(keccak, rest[i]) in Slots(keccak, txs) {
      assert rest[i] == txs[i + 1];
    }
    if DistinctSlots(keccak, txs) {
      forall i, j | 0 <= i < j < |rest| ensures TxHash(keccak, rest[i]) != TxHash(keccak, rest[j]) {
        assert rest[i] == txs[i + 1] && rest[j] == txs[j + 1];
      }
    }
  }

  /** Queueing is all or nothing: it takes free slots, all different. */
  lemma {:induction false} QueueEachIff<W>(g: Charter<W>, queued: set<word>, txs: seq<Tx>, eta: nat, now: nat)
    requires forall i | 0 <= i < |txs| :: txs[i].eta == eta
    ensures var r := QueueEach(g, queued, txs, now);
            && (r.Some? <==>
                  txs == [] || (&& MayQueue(g.rules, g.governor, eta, now)
                                && Slots(g.env.keccak, txs) !! queued && DistinctSlots(g.env.keccak, txs)))
            && (r.Some? ==> r.value == queued + Slots(g.env.keccak, txs))
    decreases |txs|
  {
    if txs != [] {
      SlotsOfHead(g.env.keccak, txs);
      QueueEachIff(g, queued + {TxHash(g.env.keccak, txs[0])}, txs[1..], eta, now);
    }
  }

  /** Executing is all or nothing: every slot queued, all different, in the window, every call good. */
  lemma {:induction false} ExecuteEachIff<W>(g: Charter<W>, queued: set<word>, w: W, txs: seq<Tx>, eta: nat, now: nat)
    requires forall i | 0 <= i < |txs| :: txs[i].eta == eta
    ensures var r := ExecuteEach(g, queued, w, txs, now);
            var end := Fold(g.env.step, w, TxCalls(g.env.keccak, txs));
            && (r.Some? <==>
                  txs == [] || (&& g.governor == g.rules.admin && !g.rules.paused
                                && eta <= now <= eta + GRACE_PERIOD
                                && Slots(g.env.keccak, txs) <= queued && DistinctSlots(g.env.keccak, txs)
                                && end.Some?))
            && (r.Some? ==> end.Some? && r.value == (queued - Slots(g.env.keccak, txs), end.value))
    decreases |txs|
  {
    if txs == [] {
      assert queued - Slots(g.env.keccak, txs) == queued;
    } else {
      SlotsOfHead(g.env.keccak, txs);
      assert TxCalls(g.env.keccak, txs)[1..] == TxCalls(g.env.keccak, txs[1..]);
      match g.env.step(w, TxCall(g.env.keccak, txs[0]))
      case None =>
      case Some(next) =>
        var slot := TxHash(g.env.keccak, txs[0]);
        ExecuteEachIff(g, queued - {slot}, next, txs[1..], eta, now);
        assert queued - Slots(g.env.keccak, txs) == queued - {slot} - Slots(g.env.keccak, txs[1..]);
    }
  }

  // ---------- The clock along the way ----------

  /** The block a driver votes or waits from: the start of the vote, unless that has passed. */
  function Entry<W>(g: Charter<W>, s: State<W>): Clock {
    if s.clock.height < s.p.startBlock then
      Clock(s.p.startBlock, s.clock.now + g.env.gap(s.clock.height) + (s.p.startBlock - s.clock.height))
    else s.clock
  }

  /** The block of the vote. */
  function VoteBlock<W>(g: Charter<W>, entry: Clock): Clock {
    Clock(entry.height + 1, entry.now + 1 + g.env.gap(entry.height))
  }

  /** The last block of the vote, of a driver that has voted at a clock. */
  function LastBlock<W>(g: Charter<W>, voted: Clock, endBlock: nat): Clock
    requires voted.height <= endBlock
  {
    if voted.height == endBlock then voted
    else Clock(endBlock, voted.now + g.env.gap(voted.height) + (endBlock - voted.height))
  }

  /** The block of the queue transaction, right after the vote's end. */
  function QueueBlock<W>(g: Charter<W>, voted: Clock, endBlock: nat): Clock
    requires voted.height <= endBlock
  {
    var last := LastBlock(g, voted, endBlock);
    Clock(endBlock + 1, last.now + 1 + g.env.gap(endBlock))
  }

  /** The block of the execute transaction of a driver that starts its wait of 200000 seconds at a clock. */
  function ExecuteBlock<W>(g: Charter<W>, c: Clock): Clock {
    Clock(c.height + 3, c.now + 200002 + g.env.gap(c.height) + g.env.gap(c.height + 2))
  }

  lemma QueueBlockIs<W>(g: Charter<W>, voted: Clock, endBlock: nat)
    requires voted.height <= endBlock
    ensures Tick(g.env.gap, LastBlock(g, voted, endBlock)) == QueueBlock(g, voted, endBlock)
  {
  }

  lemma {:induction false} EntersAt<W>(g: Charter<W>, s: State<W>, voter: address)
    ensures Drive(g, s, voter) == FromStart(g, s.(clock := Entry(g, s)), voter)
  {
    AdvanceBlockToIff(g.env, s.clock, s.p.startBlock);
  }

  lemma {:induction false} GoesOnAfterVote<W>(g: Charter<W>, s: State<W>)
    requires s.clock.height <= s.p.endBlock
    ensures AfterVote(g, s) ==
            if s.clock.height == s.p.endBlock && !g.env.emptyQuantity then (AdvanceThrew, s)
            else
              var ended := s.(clock := LastBlock(g, s.clock, s.p.endBlock));
              match QueueProposal(g, ended)
              case None => (QueueReverted, ended.(clock := QueueBlock(g, s.clock, s.p.endBlock)))
              case Some(queued) => Finish(g, queued)
  {
    AdvanceBlockToIff(g.env, s.clock, s.p.endBlock);
  }

  lemma ExecuteBlockIs<W>(g: Charter<W>, c: Clock)
    ensures Tick(g.env.gap, Increase(g.env.gap, c, JUMP)) == ExecuteBlock(g, c)
  {
    IncreaseLands(g.env.gap, c, JUMP);
  }

  /** The calls all go through when executed from an eta and a set of queued slots. */
  ghost predicate CallsGoThrough<W>(g: Charter<W>, w: W, calls: seq<Call>, eta: nat, queued: set<word>, now: nat) {
    var txs := TimelockTxs(calls, eta);
    calls == [] ||
    (&& g.governor == g.rules.admin && !g.rules.paused && eta <= now
     && Slots(g.env.keccak, txs) <= queued && DistinctSlots(g.env.keccak, txs)
     && Fold(g.env.step, w, calls).Some?)
  }

  lemma TimelockCalls(keccak: Keccak, calls: seq<Call>, eta: nat)
    ensures TxCalls(keccak, TimelockTxs(calls, eta)) == calls
  {
  }

  // ---------- The driver ----------

  lemma FinishIff<W>(g: Charter<W>, s: State<W>)
    ensures var c := ExecuteBlock(g, s.clock);
            Finish(g, s).0 == Enacted <==>
              && PhaseAt(g.quorum, s.p, c.height, c.now) == Queued
              && CallsGoThrough(g, s.world, s.p.calls, s.p.eta, s.queued, c.now)
    ensures Finish(g, s).0 == Enacted ==>
              Some(Finish(g, s).1.world) == Fold(g.env.step, s.world, s.p.calls) && Finish(g, s).1.p.executed
    ensures Finish(g, s).0 != Enacted ==> Finish(g, s).1.world == s.world
  {
    var c := ExecuteBlock(g, s.clock);
    ExecuteBlockIs(g, s.clock);
    TimelockCalls(g.env.keccak, s.p.calls, s.p.eta);
    ExecuteEachIff(g, s.queued, s.world, TimelockTxs(s.p.calls, s.p.eta), s.p.eta, c.now);
  }

  predicate Carried(quorum: nat, p: Proposal) {
    !p.executed && !p.canceled && p.forVotes > p.againstVotes && p.forVotes >= quorum && p.eta == 0
  }

  /** The calls can be queued in one block and executed after the jump, with the slots all free. */
  ghost predicate ReadyToRun<W>(g: Charter<W>, w: W, queued: set<word>, calls: seq<Call>, block: Clock) {
    var eta := block.now + g.rules.delay;
    var txs := TimelockTxs(calls, eta);
    var now := ExecuteBlock(g, block).now;
    && now < eta + GRACE_PERIOD
    && (calls != [] ==>
          && g.governor == g.rules.admin && !g.rules.paused && eta <= now
          && Slots(g.env.keccak, txs) !! queued && DistinctSlots(g.env.keccak, txs)
          && Fold(g.env.step, w, calls).Some?)
  }

  /** What is needed, once the votes are cast, for the proposal to be queued and executed. */
  ghost predicate QueuesAndExecutes<W>(g: Charter<W>, w: W, queued: set<word>, p: Proposal, voted: Clock)
    requires voted.height <= p.endBlock
  {
    && (voted.height < p.endBlock || g.env.emptyQuantity)
    && Carried(g.quorum, p) && ReadyToRun(g, w, queued, p.calls, QueueBlock(g, voted, p.endBlock))
  }

  lemma QueueProposalIff<W>(g: Charter<W>, s: State<W>)
    ensures var c := Tick(g.env.gap, s.clock);
            var eta := c.now + g.rules.delay;
            var txs := TimelockTxs(s.p.calls, eta);
            var r := QueueProposal(g, s);
            && (r.Some? <==>
                  && PhaseAt(g.quorum, s.p, c.height, c.now) == Succeeded
                  && (s.p.calls != [] ==>
                        && g.governor == g.rules.admin && !g.rules.paused
                        && Slots(g.env.keccak, txs) !! s.queued && DistinctSlots(g.env.keccak, txs)))
            && (r.Some? ==>
                  r.value == s.(clock := c, queued := s.queued + Slots(g.env.keccak, txs), p := s.p.(eta := eta)))
  {
    var c := Tick(g.env.gap, s.clock);
    var eta := c.now + g.rules.delay;
    var txs := TimelockTxs(s.p.calls, eta);
    assert txs == [] <==> s.p.calls == [];
    QueueEachIff(g, s.queued, txs, eta, c.now);
    assert MayQueue(g.rules, g.governor, eta, c.now) <==> g.governor == g.rules.admin && !g.rules.paused;
  }

  /** Once succeeded, a proposal is queued from its queue block until the grace period is over. */
  lemma QueuedPhase(quorum: nat, p: Proposal, c: Clock, eta: nat, later: Clock)
    requires PhaseAt(quorum, p, c.height, c.now) == Succeeded && later.height >= c.height && eta > 0
    ensures PhaseAt(quorum, p.(eta := eta), later.height, later.now) == Queued <==> later.now < eta + GRACE_PERIOD
  {
  }

  lemma SucceededPhase(quorum: nat, p: Proposal, c: Clock)
    requires p.startBlock < p.endBlock < c.height
    ensures PhaseAt(quorum, p, c.height, c.now) == Succeeded <==>
              Carried(quorum, p)
  {
  }

  lemma QueueAndFinishIff<W>(g: Charter<W>, s: State<W>)
    requires s.p.startBlock < s.p.endBlock <= s.clock.height
    ensures QueueProposal(g, s).Some? && Finish(g, QueueProposal(g, s).value).0 == Enacted <==>
              Carried(g.quorum, s.p) && ReadyToRun(g, s.world, s.queued, s.p.calls, Tick(g.env.gap, s.clock))
  {
    QueueProposalIff(g, s);
    SucceededPhase(g.quorum, s.p, Tick(g.env.gap, s.clock));
    var queued := QueueProposal(g, s);
    if queued.Some? {
      FinishIff(g, queued.value);
      QueuedPhase(g.quorum, s.p, queued.value.clock, queued.value.p.eta, ExecuteBlock(g, queued.value.clock));
      assert Slots(g.env.keccak, TimelockTxs(s.p.calls, queued.value.p.eta)) <= queued.value.queued;
    }
  }

  lemma {:induction false} AfterVoteIff<W>(g: Charter<W>, s: State<W>)
    requires s.p.startBlock < s.clock.height <= s.p.endBlock
    ensures AfterVote(g, s).0 == Enacted <==> QueuesAndExecutes(g, s.world, s.queued, s.p, s.clock)
  {
    GoesOnAfterVote(g, s);
    var ended := s.(clock := LastBlock(g, s.clock, s.p.endBlock));
    QueueBlockIs(g, s.clock, s.p.endBlock);
    QueueAndFinishIff(g, ended);
    assert s.clock.height < s.p.endBlock || g.env.emptyQuantity ==>
             (AfterVote(g, s).0 == Enacted <==>
              QueueProposal(g, ended).Some? && Finish(g, QueueProposal(g, ended).value).0 == Enacted);
  }

  /** The proposal once a voter has supported it. */
  function Voted<W>(g: Charter<W>, s: State<W>, voter: address): Proposal {
    s.p.(forVotes := s.p.forVotes + g.weight(voter), voters := s.p.voters + {voter})
  }

  /** A run that enters before the vote ends is enacted exactly when the vote counts and carries. */
  lemma EarlyEntryIff<W>(g: Charter<W>, s: State<W>, voter: address)
    requires Entry(g, s).height < s.p.endBlock
    ensures Drive(g, s, voter).0 == Enacted <==>
              && voter !in s.p.voters
              && QueuesAndExecutes(g, s.world, s.queued, Voted(g, s, voter), VoteBlock(g, Entry(g, s)))
  {
    EntersAt(g, s, voter);
    var entry := s.(clock := Entry(g, s));
    var voted := CastVote(g, entry, voter);
    if voted.Some? {
      AfterVoteIff(g, voted.value);
    }
  }

  /** A run that enters later only waits and executes, so the proposal must be queued, due and fresh. */
  lemma LateEntryIff<W>(g: Charter<W>, s: State<W>, voter: address)
    requires Entry(g, s).height >= s.p.endBlock
    ensures var c := ExecuteBlock(g, Entry(g, s));
            Drive(g, s, voter).0 == Enacted <==>
              && !s.p.executed && !s.p.canceled && s.p.startBlock < c.height
              && s.p.forVotes > s.p.againstVotes && s.p.forVotes >= g.quorum
              && s.p.eta > 0 && c.now < s.p.eta + 14 * 24 * 60 * 60
              && CallsGoThrough(g, s.world, s.p.calls, s.p.eta, s.queued, c.now)
  {
    EntersAt(g, s, voter);
    FinishIff(g, s.(clock := Entry(g, s)));
  }

  /** An enacted proposal has the calls' joint effect; any other run leaves the contracts alone. */
  lemma DriverEffect<W>(g: Charter<W>, s: State<W>, voter: address)
    ensures var (r, end) := Drive(g, s, voter);
            && (r == Enacted ==> Some(end.world) == Fold(g.env.step, s.world, s.p.calls) && end.p.executed)
            && (r != Enacted ==> end.world == s.world)
  {
    EntersAt(g, s, voter);
    var entry := s.(clock := Entry(g, s));
    FinishIff(g, entry);
    var voted := CastVote(g, entry, voter);
    if entry.clock.height < s.p.endBlock && voted.Some? {
      GoesOnAfterVote(g, voted.value);
      var ended := voted.value.(clock := LastBlock(g, voted.value.clock, s.p.endBlock));
      if QueueProposal(g, ended).Some? {
        FinishIff(g, QueueProposal(g, ended).value);
      }
    }
  }

  lemma FinishLeaves<W>(g: Charter<W>, s: State<W>)
    requires Finish(g, s).0 == Enacted
    ensures Fold(g.env.step, s.world, s.p.calls).Some?
    ensures Finish(g, s).1 ==
            State(ExecuteBlock(g, s.clock), Fold(g.env.step, s.world, s.p.calls).value,
                  s.queued - Slots(g.env.keccak, TimelockTxs(s.p.calls, s.p.eta)), s.p.(executed := true))
  {
    ExecuteBlockIs(g, s.clock);
    FinishIff(g, s);
    TimelockCalls(g.env.keccak, s.p.calls, s.p.eta);
    ExecuteEachIff(g, s.queued, s.world, TimelockTxs(s.p.calls, s.p.eta), s.p.eta, ExecuteBlock(g, s.clock).now);
  }

  lemma {:induction false} QueuedLeaves<W>(g: Charter<W>, s: State<W>)
    requires QueueProposal(g, s).Some? && Finish(g, QueueProposal(g, s).value).0 == Enacted
    ensures Fold(g.env.step, s.world, s.p.calls).Some?
    ensures var block := Tick(g.env.gap, s.clock);
            Finish(g, QueueProposal(g, s).value).1 ==
            State(ExecuteBlock(g, block), Fold(g.env.step, s.world, s.p.calls).value, s.queued,
                  s.p.(eta := block.now + g.rules.delay, executed := true))
  {
    QueueProposalIff(g, s);
    var queued := QueueProposal(g, s).value;
    FinishLeaves(g, queued);
    var slots := Slots(g.env.keccak, TimelockTxs(s.p.calls, queued.p.eta));
    assert s.queued + slots - slots == s.queued;
  }

  /**
   What a run that enters early and enacts the proposal leaves: the fourth block after the vote's end, the
   vote counted, the eta of the queue block, and a timelock queue as before. One that enters late only
   takes the calls off the queue and marks the proposal executed.
   */
  lemma {:induction false} EnactedLeaves<W>(g: Charter<W>, s: State<W>, voter: address)
    requires Drive(g, s, voter).0 == Enacted && s.p.startBlock < s.p.endBlock
    ensures var end := Drive(g, s, voter).1; var entry := Entry(g, s);
            && Some(end.world) == Fold(g.env.step, s.world, s.p.calls)
            && (entry.height < s.p.endBlock ==>
                  var block := QueueBlock(g, VoteBlock(g, entry), s.p.endBlock);
                  && end.clock == ExecuteBlock(g, block) && end.clock.height == s.p.endBlock + 4
                  && end.queued == s.queued
                  && end.p == s.p.(forVotes := s.p.forVotes + g.weight(voter), voters := s.p.voters + {voter},
                                   eta := block.now + g.rules.delay, executed := true))
            && (entry.height >= s.p.endBlock ==>
                  && end.clock == ExecuteBlock(g, entry)
                  && end.queued == s.queued - Slots(g.env.keccak, TimelockTxs(s.p.calls, s.p.eta))
                  && end.p == s.p.(executed := true))
  {
    EntersAt(g, s, voter);
    var entry := s.(clock := Entry(g, s));
    if entry.clock.height < s.p.endBlock {
      EarlyRunLeaves(g, entry, voter);
    } else {
      FinishLeaves(g, entry);
    }
  }

  lemma {:induction false} EarlyRunLeaves<W>(g: Charter<W>, s: State<W>, voter: address)
    requires s.clock.height < s.p.endBlock && FromStart(g, s, voter).0 == Enacted
    ensures Fold(g.env.step, s.world, s.p.calls).Some?
    ensures var block := QueueBlock(g, VoteBlock(g, s.clock), s.p.endBlock);
            FromStart(g, s, voter).1 ==
            State(ExecuteBlock(g, block), Fold(g.env.step, s.world, s.p.calls).value, s.queued,
                  Voted(g, s, voter).(eta := block.now + g.rules.delay, executed := true))
  {
    var voted := CastVote(g, s, voter).value;
    assert voted == s.(clock := VoteBlock(g, s.clock), p := Voted(g, s, voter));
    GoesOnAfterVote(g, voted);
    QueueBlockIs(g, voted.clock, s.p.endBlock);
    QueuedLeaves(g, voted.(clock := LastBlock(g, voted.clock, s.p.endBlock)));
  }

  /** A vote counts exactly in the blocks after the start up to the end, once a voter, while nothing is decided. */
  lemma VoteCountsIff<W>(g: Charter<W>, s: State<W>, voter: address)
    ensures CastVote(g, s, voter).Some? <==>
              && s.p.startBlock < s.clock.height + 1 <= s.p.endBlock
              && !s.p.executed && !s.p.canceled && voter !in s.p.voters
  {
  }

  // ---------- The promised runs ----------

  lemma QueueBlockTime<W>(g: Charter<W>, c: Clock)
    ensures c.now + JUMP + 2 <= ExecuteBlock(g, c).now
    ensures ExecuteBlock(g, c).now == c.now + JUMP + 2 + g.env.gap(c.height) + g.env.gap(c.height + 2)
  {
  }

  /** The timelock takes the governor's calls, and blocks are quicker than half the grace period. */
  ghost predicate Smooth<W>(g: Charter<W>) {
    && g.governor == g.rules.admin && !g.rules.paused && g.rules.delay <= JUMP
    && forall h: nat :: g.env.gap(h) < (GRACE_PERIOD - JUMP) / 2 - 1
  }

  /** Queued in a block, the calls would take free slots, no two the same. */
  ghost predicate FreeSlots<W>(g: Charter<W>, queued: set<word>, calls: seq<Call>, block: Clock) {
    var txs := TimelockTxs(calls, block.now + g.rules.delay);
    Slots(g.env.keccak, txs) !! queued && DistinctSlots(g.env.keccak, txs)
  }

  /** Quick blocks and a short delay put the execute block between the eta and the end of the grace period. */
  lemma FreeSlotsAreReady<W>(g: Charter<W>, w: W, queued: set<word>, calls: seq<Call>, block: Clock)
    requires Smooth(g) && FreeSlots(g, queued, calls, block) && Fold(g.env.step, w, calls).Some?
    ensures ReadyToRun(g, w, queued, calls, block)
  {
    QueueBlockTime(g, block);
  }

  /**
   A fresh proposal whose calls all succeed and share no slot, a fresh voter who carries it, a
   timelock delay of at most the jump, and blocks quicker than half the grace period: every run
   that enters before the last voting block enacts it. One that finds itself a block before the
   end does so exactly when the node takes "0x" for a number of blocks.
   */
  lemma FreshProposalIsEnactedIff<W>(g: Charter<W>, s: State<W>, voter: address)
    requires s.clock.height < s.p.endBlock && s.p.startBlock < s.p.endBlock
    requires Carried(g.quorum, Voted(g, s, voter)) && voter !in s.p.voters && Smooth(g)
    requires Fold(g.env.step, s.world, s.p.calls).Some?
    requires Entry(g, s).height + 1 < s.p.endBlock || g.env.emptyQuantity ==>
               FreeSlots(g, s.queued, s.p.calls, QueueBlock(g, VoteBlock(g, Entry(g, s)), s.p.endBlock))
    ensures Drive(g, s, voter).0 == Enacted <==>
              (s.clock.height + 1 < s.p.endBlock && s.p.startBlock + 1 < s.p.endBlock) || g.env.emptyQuantity
  {
    EarlyEntryIff(g, s, voter);
    var voted := VoteBlock(g, Entry(g, s));
    if voted.height < s.p.endBlock || g.env.emptyQuantity {
      FreeSlotsAreReady(g, s.world, s.queued, s.p.calls, QueueBlock(g, voted, s.p.endBlock));
    }
  }

  /** From the block before the end the vote goes through, and the advance by no blocks throws. */
  lemma LastVotingBlockThrows<W>(g: Charter<W>, s: State<W>, voter: address)
    requires s.p.startBlock < s.p.endBlock && Entry(g, s).height + 1 == s.p.endBlock && !g.env.emptyQuantity
    requires !s.p.executed && !s.p.canceled && voter !in s.p.voters
    ensures Drive(g, s, voter).0 == AdvanceThrew && Drive(g, s, voter).1.p == Voted(g, s, voter)
  {
    EntersAt(g, s, voter);
    GoesOnAfterVote(g, CastVote(g, s.(clock := Entry(g, s)), voter).value);
  }

  /** An otherwise sound proposal without calls, between blocks 5 and 10, met at block 9. */
  function LateVoteCharter<W>(keccak: Keccak, step: Step<W>): Charter<W> {
    Charter(Env(keccak, h => 0, step, false), Rules(0, 0, false), 0, 1, a => 1)
  }

  function LateVoteState<W>(w: W): State<W> {
    State(Clock(9, 100), w, {}, Proposal([], 5, 10, 0, 0, {}, 0, false, false))
  }

  lemma LateVoteThrows<W>(keccak: Keccak, step: Step<W>, w: W, voter: address)
    ensures var g := LateVoteCharter(keccak, step); var s := LateVoteState(w);
            && s.clock.height < s.p.endBlock && s.p.startBlock < s.p.endBlock
            && Carried(g.quorum, Voted(g, s, voter)) && voter !in s.p.voters && Smooth(g)
            && Fold(g.env.step, s.world, s.p.calls).Some?
            && s.clock.height + 1 == s.p.endBlock && !g.env.emptyQuantity
            && Drive(g, s, voter).0 == AdvanceThrew
  {
    LastVotingBlockThrows(LateVoteCharter(keccak, step), LateVoteState(w), voter);
  }

  /** An empty proposal with the vote between blocks 100 and 150, met at genesis, a second a block. */
  function EmptyCharter<W>(keccak: Keccak, step: Step<W>): Charter<W> {
    Charter(Env(keccak, h => 0, step, false), Rules(0, 86400, false), 0, 1, a => 1)
  }

  function EmptyState<W>(w: W): State<W> {
    State(Clock(0, 1000), w, {}, Proposal([], 100, 150, 0, 0, {}, 0, false, false))
  }

  /** It is voted on in block 101, queued in block 151 and executed in block 154, after the wait. */
  lemma EmptyProposalIsEnacted<W>(keccak: Keccak, step: Step<W>, w: W, voter: address)
    ensures Drive(EmptyCharter(keccak, step), EmptyState(w), voter) ==
            (Enacted, State(Clock(154, 201153), w, {}, Proposal([], 100, 150, 1, 0, {voter}, 87551, false, true)))
  {
    var g, s := EmptyCharter(keccak, step), EmptyState(w);
    FreshProposalIsEnactedIff(g, s, voter);
    EnactedLeaves(g, s, voter);
    var end := Drive(g, s, voter).1;
    assert Entry(g, s) == Clock(100, 1100) && VoteBlock(g, Entry(g, s)) == Clock(101, 1101);
    assert QueueBlock(g, Clock(101, 1101), 150) == Clock(151, 1151);
    assert ExecuteBlock(g, Clock(151, 1151)) == Clock(154, 201153);
    assert end.world == w;
    assert end.p == Proposal([], 100, 150, 1, 0, {voter}, 87551, false, true);
  }

  /**
   A proposal that is queued already, at most the delay ahead: a run that enters after the vote
   enacts it exactly when the jump does not carry it past the grace period.
   */
  lemma QueuedProposalIsEnactedIff<W>(g: Charter<W>, s: State<W>, voter: address)
    requires s.p.startBlock < s.p.endBlock <= s.clock.height
    requires PhaseAt(g.quorum, s.p, s.clock.height + 1, s.clock.now) == Queued
    requires s.p.eta <= s.clock.now + g.rules.delay && g.rules.delay <= JUMP
    requires g.governor == g.rules.admin && !g.rules.paused
    requires var txs := TimelockTxs(s.p.calls, s.p.eta);
             Slots(g.env.keccak, txs) <= s.queued && DistinctSlots(g.env.keccak, txs)
    requires Fold(g.env.step, s.world, s.p.calls).Some?
    ensures Drive(g, s, voter).0 == Enacted <==> ExecuteBlock(g, s.clock).now < s.p.eta + GRACE_PERIOD
  {
    LateEntryIff(g, s, voter);
    QueueBlockTime(g, s.clock);
  }
}
