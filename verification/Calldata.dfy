/**
 The calldata a proposal is submitted with, and the operation id of its batch
 (scripts/utils/constructProposalCalldata.ts).
 */
module Calldata {
  import opened Bytes
  import opened Abi
  import opened Calls
  import opened Hex
  import opened Proposals

  const PROPOSE_TYPES: seq<Ty> := [Array(Address), Array(Uint256), Array(Blob), Str]
  const BATCH_TYPES: seq<Ty> := [Array(Address), Array(Uint256), Array(Blob), Bytes32, Bytes32]
  const SCHEDULE_TYPES: seq<Ty> := BATCH_TYPES + [Uint256]
  const REGISTER_TYPES: seq<Ty> := [Uint256, Uint256, Str]
  const POD_EXECUTE_TYPES: seq<Ty> := [Address] + BATCH_TYPES

  const PROPOSE: text := Signature("propose", PROPOSE_TYPES)
  const SCHEDULE_BATCH: text := Signature("scheduleBatch", SCHEDULE_TYPES)
  const EXECUTE_BATCH: text := Signature("executeBatch", BATCH_TYPES)
  const REGISTER_PROPOSAL: text := Signature("registerProposal", REGISTER_TYPES)
  const POD_EXECUTE_BATCH: text := Signature("executeBatch", POD_EXECUTE_TYPES)

  /** Four days: the fixed delay of the schedule calldata. */
  const SCHEDULE_DELAY: word := 345600

  datatype PodConfig = PodConfig(id: word, timelock: address)

  /** What a timelock controller hashes into an operation id. */
  datatype Batch = Batch(targets: seq<address>, values: seq<word>,
                         payloads: seq<seq<byte>>, predecessor: word, salt: word)

  // ---------- The types as text ----------

  /** How the parameter types of the five methods are written in their signatures. */
  lemma ParameterLists()
    ensures TypeNames(PROPOSE_TYPES) == "address[]" + "," + ("uint256[]" + "," + ("bytes[]" + "," + "string"))
    ensures TypeNames(BATCH_TYPES) ==
            "address[]" + "," + ("uint256[]" + "," + ("bytes[]" + "," + ("bytes32" + "," + "bytes32")))
    ensures TypeNames(SCHEDULE_TYPES) ==
            "address[]" + "," + ("uint256[]" + "," + ("bytes[]" + ","
            + ("bytes32" + "," + ("bytes32" + "," + "uint256"))))
    ensures TypeNames(REGISTER_TYPES) == "uint256" + "," + ("uint256" + "," + "string")
    ensures TypeNames(POD_EXECUTE_TYPES) == "address" + "," + TypeNames(BATCH_TYPES)
  {
    ThreeNames(Uint256, Uint256, Str);
    ThreeNames(Array(Uint256), Array(Blob), Str);
    assert PROPOSE_TYPES[1..] == [Array(Uint256), Array(Blob), Str];
    BatchNames();
    ScheduleNames();
    assert POD_EXECUTE_TYPES[1..] == BATCH_TYPES;
  }

  lemma BatchNames()
    ensures TypeNames(BATCH_TYPES) ==
            "address[]" + "," + ("uint256[]" + "," + ("bytes[]" + "," + ("bytes32" + "," + "bytes32")))
  {
    ThreeNames(Array(Blob), Bytes32, Bytes32);
    assert BATCH_TYPES[1..][1..] == [Array(Blob), Bytes32, Bytes32];
    assert TypeNames(BATCH_TYPES[1..]) == "uint256[]" + "," + TypeNames([Array(Blob), Bytes32, Bytes32]);
  }

  lemma ScheduleNames()
    ensures TypeNames(SCHEDULE_TYPES) ==
            "address[]" + "," + ("uint256[]" + "," + ("bytes[]" + ","
            + ("bytes32" + "," + ("bytes32" + "," + "uint256"))))
  {
    ThreeNames(Bytes32, Bytes32, Uint256);
    assert SCHEDULE_TYPES[1..][1..][1..] == [Bytes32, Bytes32, Uint256];
    assert TypeNames(SCHEDULE_TYPES[1..][1..]) == "bytes[]" + "," + TypeNames([Bytes32, Bytes32, Uint256]);
  }

  lemma ThreeNames(a: Ty, b: Ty, c: Ty)
    ensures TypeNames([a, b, c]) == TypeName(a) + "," + (TypeName(b) + "," + TypeName(c))
  {
    assert [a, b, c][1..] == [b, c] && [b, c][1..] == [c];
    assert TypeNames([c]) == TypeName(c);
  }

  // ---------- Values as ABI arguments ----------

  function AddressVals(xs: seq<address>): (vs: seq<Val>)
    ensures HasType(List(vs), Array(Address))
  {
    seq(|xs|, i requires 0 <= i < |xs| => Num(xs[i]))
  }

  function WordVals(xs: seq<word>): (vs: seq<Val>)
    ensures HasType(List(vs), Array(Uint256))
  {
    seq(|xs|, i requires 0 <= i < |xs| => Num(xs[i]))
  }

  function DataVals(xs: seq<seq<byte>>): (vs: seq<Val>)
    ensures HasType(List(vs), Array(Blob))
  {
    seq(|xs|, i requires 0 <= i < |xs| => Data(xs[i]))
  }

  function BatchVals(b: Batch): (vs: seq<Val>)
    ensures HaveTypes(vs, BATCH_TYPES)
  {
    [List(AddressVals(b.targets)), List(WordVals(b.values)), List(DataVals(b.payloads)),
     Num(b.predecessor), Num(b.salt)]
  }

  lemma BatchValsInjective(a: Batch, b: Batch)
    requires BatchVals(a) == BatchVals(b)
    ensures a == b
  {
    var va, vb := BatchVals(a), BatchVals(b);
    assert va[0] == vb[0] && va[1] == vb[1] && va[2] == vb[2] && va[3] == vb[3] && va[4] == vb[4];
    var ta, tb := AddressVals(a.targets), AddressVals(b.targets);
    assert forall i | 0 <= i < |a.targets| :: ta[i] == Num(a.targets[i]) && tb[i] == Num(b.targets[i]);
    assert a.targets == b.targets;
    var wa, wb := WordVals(a.values), WordVals(b.values);
    assert forall i | 0 <= i < |a.values| :: wa[i] == Num(a.values[i]) && wb[i] == Num(b.values[i]);
    assert a.values == b.values;
    var da, db := DataVals(a.payloads), DataVals(b.payloads);
    assert forall i | 0 <= i < |a.payloads| :: da[i] == Data(a.payloads[i]) && db[i] == Data(b.payloads[i]);
    assert a.payloads == b.payloads;
  }

  // ---------- Function calls ----------

  /** encodeFunctionData: the selector, then the arguments. */
  function EncodeCall(keccak: Keccak, signature: text, args: seq<Val>): seq<byte> {
    Selector(keccak, signature) + EncodeTuple(args)
  }

  /** What the called function receives. */
  function DecodeCall(ts: seq<Ty>, data: seq<byte>): Option<seq<Val>> {
    if |data| < 4 then None else DecodeTuple(ts, data[4..])
  }

  /** A function's arguments arrive as they were given. */
  lemma CallRoundTrip(keccak: Keccak, signature: text, args: seq<Val>, ts: seq<Ty>)
    requires HaveTypes(args, ts) && |EncodeTuple(args)| < WORDS
    ensures DecodeCall(ts, EncodeCall(keccak, signature, args)) == Some(args)
  {
    assert EncodeCall(keccak, signature, args)[4..] == EncodeTuple(args);
    TupleRoundTrip(args, ts);
  }

  // ---------- The operation id ----------

  /** hashOperationBatch on chain, and computeBatchProposalId off chain. */
  function BatchId(keccak: Keccak, b: Batch): word {
    keccak(EncodeTuple(BatchVals(b)))
  }

  method ComputeBatchProposalId(
    keccak: Keccak, targets: seq<address>, values: seq<word>, payloads: seq<string>, predecessor: word, salt: word)
    returns (id: word)
    requires forall i | 0 <= i < |payloads| :: Arrayify(payloads[i]).Some?
    ensures id == BatchId(keccak, Batch(targets, values, Unhex(payloads), predecessor, salt))
  {
    var vals := [List(AddressVals(targets)), List(WordVals(values)),
                List(DataVals(Unhex(payloads))), Num(predecessor), Num(salt)];
    id := keccak(EncodeTuple(vals));
  }

  ghost predicate Collision(keccak: Keccak, a: seq<byte>, b: seq<byte>) {
    a != b && keccak(a) == keccak(b)
  }

  /**
   What is hashed for an id: where the three arrays are encoded, then the predecessor and the salt, and then
   the arrays one after another, targets first.
   */
  lemma BatchPreimage(keccak: Keccak, b: Batch) returns (e: seq<byte>)
    ensures BatchId(keccak, b) == keccak(e)
    ensures var targets, values := Encode(List(AddressVals(b.targets))), Encode(List(WordVals(b.values)));
            var payloads := Encode(List(DataVals(b.payloads)));
            && |e| == 160 + |targets| + |values| + |payloads|
            && LiesAt(BigEndian(160, 32), e, 0)
            && LiesAt(BigEndian(160 + |targets|, 32), e, 32)
            && LiesAt(BigEndian(160 + |targets| + |values|, 32), e, 64)
            && LiesAt(BigEndian(b.predecessor, 32), e, 96)
            && LiesAt(BigEndian(b.salt, 32), e, 128)
            && LiesAt(targets, e, 160) && LiesAt(values, e, 160 + |targets|)
            && LiesAt(payloads, e, 160 + |targets| + |values|)
  {
    var vs := BatchVals(b);
    e := EncodeTuple(vs);
    DynamicInBatch(b);
    TupleLayout(vs, 0);
    TupleLayout(vs, 1);
    TupleLayout(vs, 2);
    TupleLayout(vs, 3);
    TupleLayout(vs, 4);
  }

  lemma DynamicInBatch(b: Batch)
    ensures var vs := BatchVals(b);
            var first := |Encode(List(AddressVals(b.targets)))|;
            var second := first + |Encode(List(WordVals(b.values)))|;
            && DynamicBefore(vs, 0) == 0 && DynamicBefore(vs, 1) == first && DynamicBefore(vs, 2) == second
            && DynamicBefore(vs, 5) == DynamicBefore(vs, 4) == DynamicBefore(vs, 3)
            && DynamicBefore(vs, 3) == second + |Encode(List(DataVals(b.payloads)))|
  {
  }

  /** Two batches with one id are the same batch, or their pre-images are a keccak256 collision. */
  lemma BatchIdDetermines(keccak: Keccak, a: Batch, b: Batch)
    requires |EncodeTuple(BatchVals(a))| < WORDS
    requires BatchId(keccak, a) == BatchId(keccak, b)
    ensures a == b || Collision(keccak, EncodeTuple(BatchVals(a)), EncodeTuple(BatchVals(b)))
  {
    if EncodeTuple(BatchVals(a)) == EncodeTuple(BatchVals(b)) {
      EncodeTupleInjective(BatchVals(a), BatchVals(b), BATCH_TYPES);
      BatchValsInjective(a, b);
    }
  }

  // ---------- Splicing ----------

  function Payloads(keccak: Keccak, actions: seq<Action>): (ps: seq<seq<byte>>)
    ensures |ps| == |actions|
  {
    seq(|actions|, i requires 0 <= i < |actions| => Payload(keccak, actions[i]))
  }

  function Targets(actions: seq<Action>): (ts: seq<address>)
    ensures |ts| == |actions|
  {
    seq(|actions|, i requires 0 <= i < |actions| => actions[i].target)
  }

  function Values(actions: seq<Action>): (vs: seq<word>)
    ensures |vs| == |actions|
  {
    seq(|actions|, i requires 0 <= i < |actions| => actions[i].value)
  }

  /** The 0x-prefixed hash of a text. */
  function Id(keccak: Keccak, t: text): string {
    Hexlify(BigEndian(keccak(t), 32))
  }

  lemma SighashSplice(keccak: Keccak, signature: text, args: seq<byte>)
    ensures Id(keccak, signature)[..10] + Hexlify(args)[2..] == Hexlify(Selector(keccak, signature) + args)
  {
    var hash := BigEndian(keccak(signature), 32);
    assert hash == hash[..4] + hash[4..];
    HexlifySplice(hash[..4], hash[4..]);
    assert Id(keccak, signature)[..10] == Hexlify(hash[..4]);
    HexlifySplice(hash[..4], args);
  }

  /** Each argument encoding, its 0x replaced by its signature's selector. */
  method CombineCalldatas(keccak: Keccak, p: SigmaProposal) returns (combined: seq<string>)
    requires p.Valid()
    ensures |combined| == |p.targets|
    ensures forall i | 0 <= i < |combined| :: Arrayify(combined[i]) == Some(Payload(keccak, p.Actions()[i]))
  {
    combined := [];
    for i := 0 to |p.targets|
      invariant |combined| == i
      invariant forall k | 0 <= k < i :: Arrayify(combined[k]) == Some(Payload(keccak, p.Actions()[k]))
    {
      var sighash := Id(keccak, p.signatures[i])[..10];
      combined := combined + [sighash + p.calldatas[i][2..]];
      var args := Arrayify(p.calldatas[i]).value;
      SighashSplice(keccak, p.signatures[i], args);
      ArrayifyHexlify(Selector(keccak, p.signatures[i]) + args);
    }
  }

  // ---------- The four calldatas ----------

  function ProposeVals(keccak: Keccak, actions: seq<Action>, description: text): (vs: seq<Val>)
    ensures HaveTypes(vs, PROPOSE_TYPES)
  {
    [List(AddressVals(Targets(actions))), List(WordVals(Values(actions))),
     List(DataVals(Payloads(keccak, actions))), Data(description)]
  }

  /** The batch a pod proposal is: no predecessor, the title's hash as salt. */
  function PodBatch(keccak: Keccak, actions: seq<Action>, title: text): Batch {
    Batch(Targets(actions), Values(actions), Payloads(keccak, actions), 0, keccak(title))
  }

  function Unhex(xs: seq<string>): seq<seq<byte>>
    requires forall i | 0 <= i < |xs| :: Arrayify(xs[i]).Some?
  {
    seq(|xs|, i requires 0 <= i < |xs| => Arrayify(xs[i]).value)
  }

  lemma ListsOfActions(keccak: Keccak, p: SigmaProposal, combined: seq<string>)
    requires p.Valid() && |combined| == |p.targets|
    requires forall i | 0 <= i < |combined| :: Arrayify(combined[i]) == Some(Payload(keccak, p.Actions()[i]))
    ensures p.targets == Targets(p.Actions()) && p.values == Values(p.Actions())
    ensures Unhex(combined) == Payloads(keccak, p.Actions())
  {
  }

  /** The governor's propose call carries the proposal's own lists and description. */
  method GetDAOCalldata(keccak: Keccak, p: SigmaProposal) returns (calldata: string)
    requires p.Valid()
    ensures calldata == Hexlify(EncodeCall(keccak, PROPOSE, ProposeVals(keccak, p.Actions(), p.description)))
  {
    var combined := CombineCalldatas(keccak, p);
    ListsOfActions(keccak, p, combined);
    var vals := [List(AddressVals(p.targets)), List(WordVals(p.values)),
                List(DataVals(Unhex(combined))), Data(p.description)];
    calldata := Hexlify(EncodeCall(keccak, PROPOSE, vals));
  }

  datatype PodCalldata = PodCalldata(schedule: string, register: string, execute: string, podExecute: string)

  function ScheduleBytes(keccak: Keccak, b: Batch): seq<byte> {
    EncodeCall(keccak, SCHEDULE_BATCH, BatchVals(b) + [Num(SCHEDULE_DELAY)])
  }

  function ExecuteBytes(keccak: Keccak, b: Batch): seq<byte> {
    EncodeCall(keccak, EXECUTE_BATCH, BatchVals(b))
  }

  function PodExecuteBytes(keccak: Keccak, timelock: address, b: Batch): seq<byte> {
    EncodeCall(keccak, POD_EXECUTE_BATCH, [Num(timelock)] + BatchVals(b))
  }

  function RegisterBytes(keccak: Keccak, podId: word, proposalId: word, metadata: text): seq<byte> {
    EncodeCall(keccak, REGISTER_PROPOSAL, [Num(podId), Num(proposalId), Data(metadata)])
  }

  /** The four calldatas of a batch. */
  function CalldatasOf(keccak: Keccak, b: Batch, pod: PodConfig, metadata: text): PodCalldata {
    PodCalldata(Hexlify(ScheduleBytes(keccak, b)),
                Hexlify(RegisterBytes(keccak, pod.id, BatchId(keccak, b), metadata)),
                Hexlify(ExecuteBytes(keccak, b)),
                Hexlify(PodExecuteBytes(keccak, pod.timelock, b)))
  }

  /** The one text in which a script prints them. */
  function Labelled(c: PodCalldata): string {
    "Calldata: " + (c.schedule + ("\n" + ("Metadata Calldata: " + (c.register + ("\n" +
    ("Execute Calldata: " + (c.execute + ("\n" + ("Pod Executor Calldata: " + c.podExecute)))))))))
  }

  // ---------- Reading the printed text ----------

  function LineLength(s: string): nat {
    if s == [] || s[0] == '\n' then 0 else 1 + LineLength(s[1..])
  }

  lemma {:induction false} LineLengthBound(s: string)
    ensures LineLength(s) <= |s|
  {
    if s != [] {
      LineLengthBound(s[1..]);
    }
  }

  /** What stands behind a label, in the first line that starts with it. */
  function Line(s: string, mark: string): Option<string>
    decreases |s|
  {
    LineLengthBound(s);
    var end := LineLength(s);
    if mark <= s[..end] then Some(s[|mark|..end])
    else if end == |s| then None
    else Line(s[end + 1..], mark)
  }

  lemma {:induction false} FirstLineEnds(p: string, a: string)
    requires '\n' !in p
    ensures LineLength(p + ("\n" + a)) == |p| && LineLength(p) == |p|
  {
    if p != [] {
      assert (p + ("\n" + a))[1..] == p[1..] + ("\n" + a);
      FirstLineEnds(p[1..], a);
    } else {
      assert p + ("\n" + a) == "\n" + a;
    }
  }

  lemma FirstLineIs(line: string, a: string)
    requires '\n' !in line
    ensures var s := line + ("\n" + a);
            && LineLength(s) == |line| < |s| && s[..|line|] == line && s[|line| + 1..] == a
  {
    FirstLineEnds(line, a);
  }

  lemma LineFound(mark: string, p: string, a: string)
    requires '\n' !in mark && '\n' !in p
    ensures Line(mark + (p + ("\n" + a)), mark) == Some(p)
    ensures Line(mark + p, mark) == Some(p)
  {
    FirstLineIs(mark + p, a);
    FirstLineEnds(mark + p, a);
    assert mark + (p + ("\n" + a)) == (mark + p) + ("\n" + a);
    assert (mark + p)[..|mark + p|] == mark + p && (mark + p)[|mark|..] == p;
    assert ((mark + p) + ("\n" + a))[|mark|..|mark + p|] == p;
  }

  lemma LineSkipped(other: string, p: string, a: string, mark: string)
    requires '\n' !in other && '\n' !in p
    requires |mark| > 0 && |other| > 0 && mark[0] != other[0]
    ensures Line(other + (p + ("\n" + a)), mark) == Line(a, mark)
  {
    var line := other + p;
    FirstLineIs(line, a);
    assert other + (p + ("\n" + a)) == line + ("\n" + a);
    assert line[0] == other[0];
    LineIsNot(line, a, mark);
  }

  lemma LineIsNot(line: string, a: string, mark: string)
    requires '\n' !in line && !(mark <= line)
    ensures Line(line + ("\n" + a), mark) == Line(a, mark)
  {
    FirstLineIs(line, a);
  }

  lemma LabelsAreOneLine()
    ensures '\n' !in "Calldata: " && '\n' !in "Metadata Calldata: "
    ensures '\n' !in "Execute Calldata: " && '\n' !in "Pod Executor Calldata: "
  {
  }

  /** Behind each label stands its own calldata. */
  lemma LabelledLines(c: PodCalldata)
    requires '\n' !in c.schedule && '\n' !in c.register && '\n' !in c.execute && '\n' !in c.podExecute
    ensures Line(Labelled(c), "Calldata: ") == Some(c.schedule)
    ensures Line(Labelled(c), "Metadata Calldata: ") == Some(c.register)
    ensures Line(Labelled(c), "Execute Calldata: ") == Some(c.execute)
    ensures Line(Labelled(c), "Pod Executor Calldata: ") == Some(c.podExecute)
  {
    LabelsAreOneLine();
    var l4 := "Pod Executor Calldata: " + c.podExecute;
    var l3 := "Execute Calldata: " + (c.execute + ("\n" + l4));
    var l2 := "Metadata Calldata: " + (c.register + ("\n" + l3));
    LineFound("Calldata: ", c.schedule, l2);
    LineFound("Metadata Calldata: ", c.register, l3);
    LineFound("Execute Calldata: ", c.execute, l4);
    LineFound("Pod Executor Calldata: ", c.podExecute, []);
    LineSkipped("Calldata: ", c.schedule, l2, "Metadata Calldata: ");
    LineSkipped("Calldata: ", c.schedule, l2, "Execute Calldata: ");
    LineSkipped("Calldata: ", c.schedule, l2, "Pod Executor Calldata: ");
    LineSkipped("Metadata Calldata: ", c.register, l3, "Execute Calldata: ");
    LineSkipped("Metadata Calldata: ", c.register, l3, "Pod Executor Calldata: ");
    LineSkipped("Execute Calldata: ", c.execute, l4, "Pod Executor Calldata: ");
  }

  /** The bytes to send that the text has behind a label. */
  function Printed(s: string, mark: string): Option<seq<byte>> {
    match Line(s, mark)
    case None => None
    case Some(hex) => Arrayify(hex)
  }

  lemma PrintedBytes(keccak: Keccak, b: Batch, pod: PodConfig, metadata: text)
    ensures var s := Labelled(CalldatasOf(keccak, b, pod, metadata));
            && Printed(s, "Calldata: ") == Some(ScheduleBytes(keccak, b))
            && Printed(s, "Metadata Calldata: ") == Some(RegisterBytes(keccak, pod.id, BatchId(keccak, b), metadata))
            && Printed(s, "Execute Calldata: ") == Some(ExecuteBytes(keccak, b))
            && Printed(s, "Pod Executor Calldata: ") == Some(PodExecuteBytes(keccak, pod.timelock, b))
  {
    HexIsOneLine(ScheduleBytes(keccak, b));
    HexIsOneLine(RegisterBytes(keccak, pod.id, BatchId(keccak, b), metadata));
    HexIsOneLine(ExecuteBytes(keccak, b));
    HexIsOneLine(PodExecuteBytes(keccak, pod.timelock, b));
    LabelledLines(CalldatasOf(keccak, b, pod, metadata));
    ArrayifyHexlify(ScheduleBytes(keccak, b));
    ArrayifyHexlify(RegisterBytes(keccak, pod.id, BatchId(keccak, b), metadata));
    ArrayifyHexlify(ExecuteBytes(keccak, b));
    ArrayifyHexlify(PodExecuteBytes(keccak, pod.timelock, b));
  }

  /** So two batches that print alike, for whatever pods and metadata, have the same four calldatas. */
  lemma PrintedAlikeCalldatas(
    keccak: Keccak, b: Batch, pod: PodConfig, metadata: text, c: Batch, other: PodConfig, note: text)
    requires Labelled(CalldatasOf(keccak, b, pod, metadata)) == Labelled(CalldatasOf(keccak, c, other, note))
    ensures CalldatasOf(keccak, b, pod, metadata) == CalldatasOf(keccak, c, other, note)
  {
    PrintedBytes(keccak, b, pod, metadata);
    PrintedBytes(keccak, c, other, note);
  }

  method GetPodCalldata(keccak: Keccak, p: SigmaProposal, info: Description, pod: PodConfig) returns (printed: string)
    requires p.Valid()
    ensures printed == Labelled(CalldatasOf(keccak, PodBatch(keccak, p.Actions(), info.title), pod, info.description))
  {
    var combined := CombineCalldatas(keccak, p);
    ListsOfActions(keccak, p, combined);
    var salt := keccak(info.title);
    var predecessor: word := 0;
    var vals := BatchVals(Batch(p.targets, p.values, Unhex(combined), predecessor, salt));
    var schedule := Hexlify(EncodeCall(keccak, SCHEDULE_BATCH, vals + [Num(SCHEDULE_DELAY)]));
    var execute := Hexlify(EncodeCall(keccak, EXECUTE_BATCH, vals));
    var proposalId := ComputeBatchProposalId(keccak, p.targets, p.values, combined, predecessor, salt);
    var register := Hexlify(
      EncodeCall(keccak, REGISTER_PROPOSAL, [Num(pod.id), Num(proposalId), Data(info.description)]));
    var podExecute := Hexlify(EncodeCall(keccak, POD_EXECUTE_BATCH, [Num(pod.timelock)] + vals));
    printed := Labelled(PodCalldata(schedule, register, execute, podExecute));
  }

  // ---------- One operation ----------

  /** The batch inside decoded arguments, as the timelock controller receives it. */
  function BatchOf(vs: seq<Val>): Option<Batch> {
    if HaveTypes(vs, BATCH_TYPES) then
      Some(Batch(Addresses(vs[0].items), Words(vs[1].items), Datas(vs[2].items), vs[3].n, vs[4].n))
    else None
  }

  function Addresses(vs: seq<Val>): (xs: seq<address>)
    requires HasType(List(vs), Array(Address))
    ensures |xs| == |vs|
  {
    assert forall i | 0 <= i < |vs| :: HasType(vs[i], Address);
    seq(|vs|, i requires 0 <= i < |vs| && HasType(vs[i], Address) => vs[i].n)
  }

  function Words(vs: seq<Val>): (xs: seq<word>)
    requires HasType(List(vs), Array(Uint256))
    ensures |xs| == |vs|
  {
    assert forall i | 0 <= i < |vs| :: HasType(vs[i], Uint256);
    seq(|vs|, i requires 0 <= i < |vs| && HasType(vs[i], Uint256) => vs[i].n)
  }

  function Datas(vs: seq<Val>): (xs: seq<seq<byte>>)
    requires HasType(List(vs), Array(Blob))
    ensures |xs| == |vs|
  {
    assert forall i | 0 <= i < |vs| :: HasType(vs[i], Blob);
    seq(|vs|, i requires 0 <= i < |vs| && HasType(vs[i], Blob) => vs[i].bytes)
  }

  lemma BatchOfVals(b: Batch)
    ensures BatchOf(BatchVals(b)) == Some(b)
  {
    var vs := BatchVals(b);
    assert Addresses(vs[0].items) == b.targets;
    assert Words(vs[1].items) == b.values;
    assert Datas(vs[2].items) == b.payloads;
  }

  // ---------- The called methods ----------

  /** The data starts with the selector of a method's name and parameter types. */
  predicate IsCallOf(keccak: Keccak, name: string, ts: seq<Ty>, data: seq<byte>) {
    |data| >= 4 && data[..4] == BigEndian(keccak(Signature(name, ts)), 32)[..4]
  }

  /** The arguments that a method receives, if it is the one that is called. */
  function Received(keccak: Keccak, name: string, ts: seq<Ty>, data: seq<byte>): Option<seq<Val>> {
    if IsCallOf(keccak, name, ts, data) then DecodeCall(ts, data) else None
  }

  lemma ArgumentsArrive(keccak: Keccak, name: string, ts: seq<Ty>, args: seq<Val>)
    requires HaveTypes(args, ts) && Fits(args)
    ensures Received(keccak, name, ts, EncodeCall(keccak, Signature(name, ts), args)) == Some(args)
  {
    var data := EncodeCall(keccak, Signature(name, ts), args);
    assert data[..4] == Selector(keccak, Signature(name, ts));
    CallRoundTrip(keccak, Signature(name, ts), args, ts);
  }

  datatype TimelockCall = ScheduleCall(batch: Batch, delay: word) | ExecuteCall(batch: Batch)

  /** The timelock controller, which tells its two methods apart by their selectors. */
  function TimelockReceives(keccak: Keccak, data: seq<byte>): Option<TimelockCall> {
    if IsCallOf(keccak, "scheduleBatch", SCHEDULE_TYPES, data) then
      match DecodeCall(SCHEDULE_TYPES, data)
      case Some(vs) =>
        if HaveTypes(vs, SCHEDULE_TYPES) && BatchOf(vs[..5]).Some?
        then Some(ScheduleCall(BatchOf(vs[..5]).value, vs[5].n)) else None
      case None => None
    else
      match Received(keccak, "executeBatch", BATCH_TYPES, data)
      case Some(vs) => if BatchOf(vs).Some? then Some(ExecuteCall(BatchOf(vs).value)) else None
      case None => None
  }

  function PodExecutorReceives(keccak: Keccak, data: seq<byte>): Option<(address, Batch)> {
    match Received(keccak, "executeBatch", POD_EXECUTE_TYPES, data)
    case Some(vs) =>
      if HaveTypes(vs, POD_EXECUTE_TYPES) && BatchOf(vs[1..]).Some?
      then Some((vs[0].n, BatchOf(vs[1..]).value)) else None
    case None => None
  }

  function RegistryReceives(keccak: Keccak, data: seq<byte>): Option<(word, word, text)> {
    match Received(keccak, "registerProposal", REGISTER_TYPES, data)
    case Some(vs) => if HaveTypes(vs, REGISTER_TYPES) then Some((vs[0].n, vs[1].n, vs[2].bytes)) else None
    case None => None
  }

  ghost predicate Fits(args: seq<Val>) {
    |EncodeTuple(args)| < WORDS
  }

  /** The timelock controller's two methods have different selectors. */
  ghost predicate TimelockSelectorsApart(keccak: Keccak) {
    Selector(keccak, Signature("scheduleBatch", SCHEDULE_TYPES))
      != Selector(keccak, Signature("executeBatch", BATCH_TYPES))
  }

  /** All that is encoded for a pod's batch fits a 256-bit address space. */
  ghost predicate AllFit(keccak: Keccak, b: Batch, pod: PodConfig, metadata: text) {
    && Fits(BatchVals(b)) && Fits(BatchVals(b) + [Num(SCHEDULE_DELAY)]) && Fits([Num(pod.timelock)] + BatchVals(b))
    && Fits([Num(pod.id), Num(BatchId(keccak, b)), Data(metadata)])
  }

  lemma ScheduleDelivers(keccak: Keccak, b: Batch)
    requires Fits(BatchVals(b) + [Num(SCHEDULE_DELAY)])
    ensures TimelockReceives(keccak, ScheduleBytes(keccak, b)) == Some(ScheduleCall(b, 4 * 24 * 60 * 60))
  {
    BatchOfVals(b);
    var vs := BatchVals(b) + [Num(SCHEDULE_DELAY)];
    ArgumentsArrive(keccak, "scheduleBatch", SCHEDULE_TYPES, vs);
    assert vs[..5] == BatchVals(b);
  }

  lemma ExecuteDelivers(keccak: Keccak, b: Batch)
    requires Fits(BatchVals(b)) && TimelockSelectorsApart(keccak)
    ensures TimelockReceives(keccak, ExecuteBytes(keccak, b)) == Some(ExecuteCall(b))
  {
    BatchOfVals(b);
    ArgumentsArrive(keccak, "executeBatch", BATCH_TYPES, BatchVals(b));
  }

  lemma PodExecuteDelivers(keccak: Keccak, timelock: address, b: Batch)
    requires Fits([Num(timelock)] + BatchVals(b))
    ensures PodExecutorReceives(keccak, PodExecuteBytes(keccak, timelock, b)) == Some((timelock, b))
  {
    BatchOfVals(b);
    var vs := [Num(timelock)] + BatchVals(b);
    ArgumentsArrive(keccak, "executeBatch", POD_EXECUTE_TYPES, vs);
    assert vs[1..] == BatchVals(b);
  }

  lemma RegisterDelivers(keccak: Keccak, podId: word, id: word, metadata: text)
    requires Fits([Num(podId), Num(id), Data(metadata)])
    ensures RegistryReceives(keccak, RegisterBytes(keccak, podId, id, metadata)) == Some((podId, id, metadata))
  {
    ArgumentsArrive(keccak, "registerProposal", REGISTER_TYPES, [Num(podId), Num(id), Data(metadata)]);
  }

  /** The operation id is the hash of what the execute call carries behind its selector. */
  lemma IdIsHashOfExecuteArguments(keccak: Keccak, b: Batch)
    ensures BatchId(keccak, b) == keccak(ExecuteBytes(keccak, b)[4..])
  {
    assert ExecuteBytes(keccak, b)[4..] == EncodeTuple(BatchVals(b));
  }

  /**
   Read from the printed text and sent, the first calldata reaches scheduleBatch, the third executeBatch
   and the fourth the pod executor, all with one batch, and the second registers that batch's id: the
   hash of the third's arguments.
   */
  lemma PodCalldatasDescribeOneOperation(keccak: Keccak, b: Batch, pod: PodConfig, metadata: text)
    returns (schedule: seq<byte>, register: seq<byte>, execute: seq<byte>, podExecute: seq<byte>)
    requires AllFit(keccak, b, pod, metadata) && TimelockSelectorsApart(keccak)
    ensures var s := Labelled(CalldatasOf(keccak, b, pod, metadata));
            && Printed(s, "Calldata: ") == Some(schedule) && Printed(s, "Metadata Calldata: ") == Some(register)
            && Printed(s, "Execute Calldata: ") == Some(execute)
            && Printed(s, "Pod Executor Calldata: ") == Some(podExecute)
    ensures TimelockReceives(keccak, schedule) == Some(ScheduleCall(b, 4 * 24 * 60 * 60))
    ensures TimelockReceives(keccak, execute) == Some(ExecuteCall(b))
    ensures PodExecutorReceives(keccak, podExecute) == Some((pod.timelock, b))
    ensures |execute| >= 4 && RegistryReceives(keccak, register) == Some((pod.id, keccak(execute[4..]), metadata))
  {
    PrintedBytes(keccak, b, pod, metadata);
    schedule, execute := ScheduleBytes(keccak, b), ExecuteBytes(keccak, b);
    register := RegisterBytes(keccak, pod.id, BatchId(keccak, b), metadata);
    podExecute := PodExecuteBytes(keccak, pod.timelock, b);
    ScheduleDelivers(keccak, b);
    RegisterDelivers(keccak, pod.id, BatchId(keccak, b), metadata);
    ExecuteDelivers(keccak, b);
    PodExecuteDelivers(keccak, pod.timelock, b);
    IdIsHashOfExecuteArguments(keccak, b);
  }

  // ---------- The governor's proposal ----------

  function Zip(targets: seq<address>, values: seq<word>, datas: seq<seq<byte>>): (calls: seq<Call>)
    requires |targets| == |values| == |datas|
    ensures |calls| == |targets|
  {
    seq(|targets|, i requires 0 <= i < |targets| => Call(targets[i], values[i], datas[i]))
  }

  /** The calls and the description a governor takes from its calldata. */
  function GovernorReceives(keccak: Keccak, data: seq<byte>): Option<(seq<Call>, text)> {
    match Received(keccak, "propose", PROPOSE_TYPES, data)
    case None => None
    case Some(vs) =>
      if HaveTypes(vs, PROPOSE_TYPES) && |vs[0].items| == |vs[1].items| == |vs[2].items| then
        Some((Zip(Addresses(vs[0].items), Words(vs[1].items), Datas(vs[2].items)), vs[3].bytes))
      else None
  }

  /**
   The propose calldata reaches propose, and delivers exactly the calls that direct sending would make,
   in order, and the description.
   */
  lemma ProposeDelivers(keccak: Keccak, actions: seq<Action>, description: text)
    requires Fits(ProposeVals(keccak, actions, description))
    ensures GovernorReceives(keccak, EncodeCall(keccak, PROPOSE, ProposeVals(keccak, actions, description)))
         == Some((CallsOf(keccak, actions), description))
  {
    var vs := ProposeVals(keccak, actions, description);
    ArgumentsArrive(keccak, "propose", PROPOSE_TYPES, vs);
    assert Addresses(vs[0].items) == Targets(actions);
    assert Words(vs[1].items) == Values(actions);
    assert Datas(vs[2].items) == Payloads(keccak, actions);
    assert Zip(Targets(actions), Values(actions), Payloads(keccak, actions)) == CallsOf(keccak, actions);
  }

  // ---------- What a compiled call carries ----------

  /**
   Every compiled command calls its contract's method, by the selector of that method's signature, and
   the method receives the arguments that the command's template makes of the address book.
   */
  lemma CompiledCallCarriesArguments(
    keccak: Keccak, contracts: Contracts, book: AddressBook, cs: seq<Command>, i: nat)
    requires i < |cs| && BuildActions(contracts, book, cs).Success?
    ensures var call := CallOf(keccak, BuildActions(contracts, book, cs).value[i]);
            var c := cs[i];
            && c.arguments.Template? && c.target in contracts && c.entry in contracts[c.target].methods
            && var entry, args := contracts[c.target].methods[c.entry], c.arguments.make(book);
               && call.target == contracts[c.target].at && call.value == c.value
               && |call.data| >= 4 && call.data[..4] == BigEndian(keccak(entry.signature), 32)[..4]
               && (Fits(args) ==> DecodeCall(entry.inputs, call.data) == Some(args))
  {
    BuildActionsAt(contracts, book, cs, i);
    var entry, args := contracts[cs[i].target].methods[cs[i].entry], cs[i].arguments.make(book);
    if Fits(args) {
      CallRoundTrip(keccak, entry.signature, args, entry.inputs);
    }
  }

  /** A list compiles exactly when each command names a method and makes arguments of its types. */
  lemma {:induction false} CompilesIff(contracts: Contracts, book: AddressBook, cs: seq<Command>)
    ensures BuildActions(contracts, book, cs).Success? <==>
              forall i | 0 <= i < |cs| ::
                && cs[i].arguments.Template? && cs[i].target in contracts
                && cs[i].entry in contracts[cs[i].target].methods
                && HaveTypes(cs[i].arguments.make(book), contracts[cs[i].target].methods[cs[i].entry].inputs)
  {
    if cs != [] {
      CompilesIff(contracts, book, cs[1..]);
      assert forall i | 1 <= i < |cs| :: cs[i] == cs[1..][i - 1];
      assert cs == [cs[0]] + cs[1..];
    }
  }
}
