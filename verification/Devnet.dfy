/**
 The local Hardhat chain the drivers run on: its clock, moved by the time helpers of
 test/helpers.ts, and the contracts' state.
 */
module Devnet {
  import opened Bytes
  import opened Calls

  datatype Clock = Clock(height: nat, now: nat)

  /** Seconds, past the one second a block must at least take, before the successor of a block. */
  type Gap = nat -> nat

  /** Everything a run depends on but does not choose. */
  datatype Env<!W> = Env(
    keccak: Keccak,
    gap: Gap,
    step: Step<W>,
    emptyQuantity: bool)  // whether hardhat_mine accepts "0x", which ethers makes of zero

  /** One block mined in the ordinary way. */
  function Tick(gap: Gap, c: Clock): Clock {
    Clock(c.height + 1, c.now + 1 + gap(c.height))
  }

  function Ticks(gap: Gap, c: Clock, k: nat): Clock {
    if k == 0 then c else Tick(gap, Ticks(gap, c, k - 1))
  }

  /** hardhat_mine: the first block comes in the ordinary way, each later one an interval after. */
  function Mine(gap: Gap, c: Clock, blocks: nat, interval: nat): Clock
    requires blocks > 0
  {
    var first := Tick(gap, c);
    Clock(first.height + blocks - 1, first.now + (blocks - 1) * interval)
  }

  /** time.increase */
  function Increase(gap: Gap, c: Clock, seconds: nat): Clock {
    if seconds == 0 then Mine(gap, c, 1, 1) else Mine(gap, c, 2, seconds)
  }

  /** time.increaseTo, which throws on a moment in the past. */
  function IncreaseTo(gap: Gap, c: Clock, time: nat): Option<Clock> {
    if time < c.now then None else Some(Increase(gap, c, time - c.now))
  }

  /** time.advanceBlockTo, which throws on a block in the past, and on no blocks if "0x" is refused. */
  function AdvanceBlockTo<W>(env: Env<W>, c: Clock, height: nat): Option<Clock> {
    if height < c.height then None
    else if height == c.height then (if env.emptyQuantity then Some(c) else None)
    else Some(Mine(env.gap, c, height - c.height, 1))
  }

  /** Advancing ends at the very block it is told, a second after another once the first is mined. */
  lemma AdvanceBlockToIff<W>(env: Env<W>, c: Clock, height: nat)
    ensures AdvanceBlockTo(env, c, height).Some? <==>
              height > c.height || (height == c.height && env.emptyQuantity)
    ensures height == c.height && env.emptyQuantity ==> AdvanceBlockTo(env, c, height) == Some(c)
    ensures height > c.height ==>
              AdvanceBlockTo(env, c, height) ==
              Some(Clock(height, c.now + env.gap(c.height) + (height - c.height)))
  {
  }

  /** Waiting takes two blocks, so far apart, or one when there is nothing to wait for. */
  lemma IncreaseLands(gap: Gap, c: Clock, seconds: nat)
    ensures Increase(gap, c, seconds) ==
            Clock(c.height + (if seconds == 0 then 1 else 2), c.now + 1 + gap(c.height) + seconds)
  {
  }

  lemma IncreaseToIff(gap: Gap, c: Clock, time: nat)
    ensures IncreaseTo(gap, c, time).Some? <==> time >= c.now
    ensures time >= c.now ==> IncreaseTo(gap, c, time).value.now == time + 1 + gap(c.height)
  {
  }

  lemma {:induction false} TicksAdvance(gap: Gap, c: Clock, k: nat)
    ensures Ticks(gap, c, k).height == c.height + k
    ensures Ticks(gap, c, k).now >= c.now + k
  {
    if k > 0 {
      TicksAdvance(gap, c, k - 1);
    }
  }

  lemma {:induction false} TicksMonotone(gap: Gap, c: Clock, j: nat, k: nat)
    requires j <= k
    ensures Ticks(gap, c, j).now <= Ticks(gap, c, k).now
  {
    if j < k {
      TicksMonotone(gap, c, j, k - 1);
    }
  }

  class Devnet<W> {
    const env: Env<W>
    var clock: Clock
    var world: W

    constructor (env: Env<W>, clock: Clock, world: W)
      ensures this.env == env && this.clock == clock && this.world == world
    {
      this.env, this.clock, this.world := env, clock, world;
    }

    method MineBlock()
      modifies this`clock
      ensures clock == Tick(env.gap, old(clock))
    {
      clock := Tick(env.gap, clock);
    }

    method IncreaseTime(seconds: nat)
      modifies this`clock
      ensures clock == Increase(env.gap, old(clock), seconds)
    {
      clock := Increase(env.gap, clock, seconds);
    }

    method IncreaseTimeTo(time: nat) returns (ok: bool)
      modifies this`clock
      ensures match IncreaseTo(env.gap, old(clock), time)
              case None => !ok && clock == old(clock)
              case Some(c) => ok && clock == c
    {
      ok := time >= clock.now;
      if ok {
        clock := Increase(env.gap, clock, time - clock.now);
      }
    }
  }
}
