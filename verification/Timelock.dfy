/** The DAO timelock (contracts/dao/timelock/Timelock.sol, FeiDAOTimelock.sol). */
module Timelock {
  import opened Bytes
  import opened Abi
  import opened Calls
  import opened Calldata
  import opened Devnet

  const GRACE_PERIOD: nat := 1209600  // 14 days

  datatype Tx = Tx(target: address, value: word, signature: text, data: seq<byte>, eta: nat)

  const TX_TYPES: seq<Ty> := [Address, Uint256, Str, Blob, Uint256]

  function TxVals(tx: Tx): (vs: seq<Val>)
    ensures tx.eta < WORDS ==> HaveTypes(vs, TX_TYPES)
  {
    [Num(tx.target), Num(tx.value), Data(tx.signature), Data(tx.data), Num(tx.eta)]
  }

  /** getTxHash: the slot of a transaction in queuedTransactions. */
  function TxHash(keccak: Keccak, tx: Tx): word {
    keccak(EncodeTuple(TxVals(tx)))
  }

  /**
   What is hashed for a slot: the target and the value, then two offsets and the eta, then the signature's
   encoding and right after it the data's.
   */
  lemma SlotPreimage(keccak: Keccak, tx: Tx) returns (e: seq<byte>)
    ensures TxHash(keccak, tx) == keccak(e)
    ensures var signature, data := Encode(Data(tx.signature)), Encode(Data(tx.data));
            && |e| == 160 + |signature| + |data|
            && LiesAt(BigEndian(tx.target, 32), e, 0)
            && LiesAt(BigEndian(tx.value, 32), e, 32)
            && LiesAt(BigEndian(160, 32), e, 64)
            && LiesAt(BigEndian(160 + |signature|, 32), e, 96)
            && LiesAt(BigEndian(tx.eta, 32), e, 128)
            && LiesAt(signature, e, 160)
            && LiesAt(data, e, 160 + |signature|)
  {
    var vs := TxVals(tx);
    e := EncodeTuple(vs);
    DynamicInSlot(tx);
    TupleLayout(vs, 0);
    TupleLayout(vs, 1);
    TupleLayout(vs, 2);
    TupleLayout(vs, 3);
    TupleLayout(vs, 4);
  }

  lemma DynamicInSlot(tx: Tx)
    ensures var vs, size := TxVals(tx), |Encode(Data(tx.signature))|;
            && DynamicBefore(vs, 2) == 0 && DynamicBefore(vs, 3) == size
            && DynamicBefore(vs, 5) == DynamicBefore(vs, 4) == size + |Encode(Data(tx.data))|
  {
    var vs := TxVals(tx);
    assert DynamicBefore(vs, 1) == 0;
  }

  /** Two transactions share a slot only if they are one, or their encodings collide. */
  lemma TxHashDetermines(keccak: Keccak, a: Tx, b: Tx)
    requires a.eta < WORDS && b.eta < WORDS && Fits(TxVals(a))
    requires TxHash(keccak, a) == TxHash(keccak, b)
    ensures a == b || Collision(keccak, EncodeTuple(TxVals(a)), EncodeTuple(TxVals(b)))
  {
    if EncodeTuple(TxVals(a)) == EncodeTuple(TxVals(b)) {
      EncodeTupleInjective(TxVals(a), TxVals(b), TX_TYPES);
      var va, vb := TxVals(a), TxVals(b);
      assert va[0] == vb[0] && va[1] == vb[1] && va[2] == vb[2] && va[3] == vb[3] && va[4] == vb[4];
    }
  }

  /** The call a transaction makes: its selector is spliced on unless the signature is empty. */
  function TxCall(keccak: Keccak, tx: Tx): Call {
    Call(tx.target, tx.value, if tx.signature == [] then tx.data else Selector(keccak, tx.signature) + tx.data)
  }

  function TxCalls(keccak: Keccak, txs: seq<Tx>): (calls: seq<Call>)
    ensures |calls| == |txs|
  {
    seq(|txs|, i requires 0 <= i < |txs| => TxCall(keccak, txs[i]))
  }

  function Slots(keccak: Keccak, txs: seq<Tx>): set<word> {
    set i | 0 <= i < |txs| :: TxHash(keccak, txs[i])
  }

  ghost predicate DistinctSlots(keccak: Keccak, txs: seq<Tx>) {
    forall i, j | 0 <= i < j < |txs| :: TxHash(keccak, txs[i]) != TxHash(keccak, txs[j])
  }

  datatype Rules = Rules(admin: address, delay: nat, paused: bool)

  predicate MayQueue(r: Rules, sender: address, eta: nat, now: nat) {
    sender == r.admin && !r.paused && eta >= now + r.delay
  }

  predicate MayExecute(keccak: Keccak, r: Rules, queued: set<word>, sender: address, tx: Tx, now: nat) {
    && sender == r.admin && !r.paused
    && TxHash(keccak, tx) in queued
    && tx.eta <= now <= tx.eta + GRACE_PERIOD
  }

  class Timelock<W> {
    const net: Devnet<W>
    var rules: Rules
    var queued: set<word>

    constructor (net: Devnet<W>, rules: Rules)
      ensures this.net == net && this.rules == rules && queued == {}
    {
      this.net, this.rules, queued := net, rules, {};
    }

    /** In the block being mined; a revert leaves no trace. */
    method QueueTransaction(sender: address, tx: Tx) returns (ok: bool)
      modifies this`queued
      ensures ok == MayQueue(rules, sender, tx.eta, net.clock.now)
      ensures queued == if ok then old(queued) + {TxHash(net.env.keccak, tx)} else old(queued)
    {
      ok := MayQueue(rules, sender, tx.eta, net.clock.now);
      if ok {
        queued := queued + {TxHash(net.env.keccak, tx)};
      }
    }

    /** In the block being mined; the slot is freed only when the call succeeds too. */
    method ExecuteTransaction(sender: address, tx: Tx) returns (ok: bool)
      modifies this`queued, net`world
      ensures ok == (MayExecute(net.env.keccak, rules, old(queued), sender, tx, net.clock.now)
                     && net.env.step(old(net.world), TxCall(net.env.keccak, tx)).Some?)
      ensures ok ==> queued == old(queued) - {TxHash(net.env.keccak, tx)}
      ensures ok ==> Some(net.world) == net.env.step(old(net.world), TxCall(net.env.keccak, tx))
      ensures !ok ==> queued == old(queued) && net.world == old(net.world)
    {
      if !MayExecute(net.env.keccak, rules, queued, sender, tx, net.clock.now) {
        return false;
      }
      match net.env.step(net.world, TxCall(net.env.keccak, tx))
      case None => ok := false;
      case Some(next) =>
        queued := queued - {TxHash(net.env.keccak, tx)};
        net.world := next;
        ok := true;
    }
  }
}
