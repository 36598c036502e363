/**
 The hand-sliced calldata of the guards' actions, and the label looked up for the address in it
 (proposals/dao/old/tip_121a.ts).
 */
module ProtecActions {
  import opened Bytes
  import opened Abi
  import opened Calldata
  import opened Calls
  import opened Hex

  const WITHDRAW_TYPES: seq<Ty> := [Address, Address, Uint256, Bool, Bool]

  const WITHDRAW_TO_SAFE_ADDRESS: text := Signature("withdrawToSafeAddress", WITHDRAW_TYPES)

  /** The arguments a guard encodes for its guardian. */
  function WithdrawVals(deposit: address, destination: address, amount: word): (vs: seq<Val>)
    ensures HaveTypes(vs, WITHDRAW_TYPES)
  {
    [Num(deposit), Num(destination), Num(amount), Num(0), Num(0)]
  }

  /**
   The guardian receives a call of withdrawToSafeAddress, with the deposit, where to withdraw to and how
   much, and neither pauses the deposit afterwards nor deposits at the destination.
   */
  lemma GuardianReceives(keccak: Keccak, deposit: address, destination: address, amount: word)
    ensures Received(keccak, "withdrawToSafeAddress", [Address, Address, Uint256, Bool, Bool],
                     EncodeCall(keccak, WITHDRAW_TO_SAFE_ADDRESS, WithdrawVals(deposit, destination, amount)))
         == Some([Num(deposit), Num(destination), Num(amount), Num(0), Num(0)])
  {
    var vs := WithdrawVals(deposit, destination, amount);
    TupleLayout(vs, 0);
    NoDynamic(vs, |vs|);
    ArgumentsArrive(keccak, "withdrawToSafeAddress", WITHDRAW_TYPES, vs);
  }

  lemma {:induction false} NoDynamic(vs: seq<Val>, i: nat)
    requires i <= |vs| && forall k | 0 <= k < i :: vs[k].Num?
    ensures DynamicBefore(vs, i) == 0
  {
    if i > 0 {
      NoDynamic(vs, i - 1);
    }
  }

  lemma WithdrawParameters()
    ensures TypeNames(WITHDRAW_TYPES) ==
            "address" + "," + ("address" + "," + ("uint256" + "," + ("bool" + "," + "bool")))
  {
    ThreeNames(Uint256, Bool, Bool);
    assert WITHDRAW_TYPES[1..][1..] == [Uint256, Bool, Bool];
    assert TypeNames(WITHDRAW_TYPES[1..]) == "address" + "," + TypeNames([Uint256, Bool, Bool]);
  }

  // ---------- Slices ----------

  /** The script's depositAddress. */
  function DepositAddress(data: string): string
    requires |data| >= 74
  {
    "0x" + data[34..74]
  }

  /** The script's withdrawAmountHex. */
  function WithdrawAmountHex(data: string): string
    requires |data| >= 202
  {
    "0x" + data[138..202]
  }

  lemma WordsLead(a: nat, b: nat, c: nat, rest: seq<Val>)
    ensures var e := EncodeTuple([Num(a), Num(b), Num(c)] + rest);
            |e| >= 96 && e[..96] == BigEndian(a, 32) + BigEndian(b, 32) + BigEndian(c, 32)
  {
    var vs := [Num(a), Num(b), Num(c)] + rest;
    var offset := 32 * |vs|;
    assert vs == [Num(a)] + ([Num(b)] + ([Num(c)] + rest));
    FirstComponent(Num(a), [Num(b)] + ([Num(c)] + rest), offset);
    FirstComponent(Num(b), [Num(c)] + rest, offset);
    FirstComponent(Num(c), rest, offset);
    assert EncodeTuple(vs) == BigEndian(a, 32) + BigEndian(b, 32) + BigEndian(c, 32) +
           (Heads(rest, offset) + Tails(vs));
  }

  lemma SliceOfHex(d: seq<byte>, i: nat, j: nat)
    requires i <= j <= |d|
    ensures |Hexlify(d)| >= 2 + 2 * j && "0x" + Hexlify(d)[2 + 2 * i..2 + 2 * j] == Hexlify(d[i..j])
  {
    assert d == d[..i] + (d[i..j] + d[j..]);
    HexlifySlice(d[..i], d[i..j], d[j..]);
  }

  /**
   In every calldata that leads with an address, an address and a number the two slices are the
   first address and the number, whatever the selector, the second address and the further arguments.
   */
  lemma SlicesReadArguments(keccak: Keccak, signature: text, a: address, b: address, amount: word, rest: seq<Val>)
    ensures var data := Hexlify(EncodeCall(keccak, signature, [Num(a), Num(b), Num(amount)] + rest));
            && |data| >= 202
            && DepositAddress(data) == Hexlify(BigEndian(a, 20))
            && WithdrawAmountHex(data) == Hexlify(BigEndian(amount, 32))
  {
    var bytes := EncodeCall(keccak, signature, [Num(a), Num(b), Num(amount)] + rest);
    WordsLead(a, b, amount, rest);
    SliceOfHex(bytes, 16, 36);
    SliceOfHex(bytes, 68, 100);
    BigEndianSuffix(a, 32, 20);
    assert bytes[4..100] == BigEndian(a, 32) + BigEndian(b, 32) + BigEndian(amount, 32);
    assert bytes[16..36] == bytes[4..100][12..32] == BigEndian(a, 32)[12..];
    assert bytes[68..100] == bytes[4..100][64..96] == BigEndian(amount, 32);
  }

  /** Read back as numbers, the slices of a guard's action are the deposit and the amount it withdraws. */
  lemma SlicesInvertEncoding(keccak: Keccak, deposit: address, destination: address, amount: word)
    ensures var data := Hexlify(
              EncodeCall(keccak, WITHDRAW_TO_SAFE_ADDRESS, WithdrawVals(deposit, destination, amount)));
            && |data| >= 202
            && Arrayify(DepositAddress(data)).Some? && FromBigEndian(Arrayify(DepositAddress(data)).value) == deposit
            && Arrayify(WithdrawAmountHex(data)).Some?
            && FromBigEndian(Arrayify(WithdrawAmountHex(data)).value) == amount
  {
    SlicesReadArguments(keccak, WITHDRAW_TO_SAFE_ADDRESS, deposit, destination, amount, [Num(0), Num(0)]);
    assert [Num(deposit), Num(destination), Num(amount)] + [Num(0), Num(0)] ==
           WithdrawVals(deposit, destination, amount);
    ArrayifyHexlify(BigEndian(deposit, 20));
    ArrayifyHexlify(BigEndian(amount, 32));
    WordSizes();
    BigEndianRoundTrip(deposit, 20);
    BigEndianRoundTrip(amount, 32);
  }

  // ---------- Labels ----------

  datatype Named = Named(key: string, address: string)

  const UNKNOWN: string := "???"

  /** The loop over the named addresses, in their order. */
  method GetAddressLabel(addresses: seq<Named>, address: string) returns (name: string)
    ensures name == Label(addresses, address)
  {
    for i := 0 to |addresses|
      invariant Label(addresses, address) == Label(addresses[i..], address)
    {
      assert addresses[i..][0] == addresses[i] && addresses[i..][1..] == addresses[i + 1..];
      if LowerCase(address) == LowerCase(addresses[i].address) {
        return addresses[i].key;
      }
    }
    name := UNKNOWN;
  }

  function Label(addresses: seq<Named>, address: string): string {
    if addresses == [] then UNKNOWN
    else if LowerCase(address) == LowerCase(addresses[0].address) then addresses[0].key
    else Label(addresses[1..], address)
  }

  /** An address as it is read, its digits in any letter case. */
  predicate Denotes(s: string, a: address) {
    Read(s) == Some(BigEndian(a, 20))
  }

  /** Two strings match exactly when what one of them denotes the other does. */
  lemma MatchesIff(s: string, t: string, a: address)
    requires Denotes(t, a)
    ensures LowerCase(s) == LowerCase(t) <==> Denotes(s, a)
  {
    ReadIff(s, BigEndian(a, 20));
    ReadIff(t, BigEndian(a, 20));
  }

  /** No two keys name one address. */
  ghost predicate Injective(addresses: seq<Named>) {
    forall i, j, a: address :: 0 <= i < j < |addresses| && Denotes(addresses[i].address, a) ==>
      !Denotes(addresses[j].address, a)
  }

  /** With one key an address, the label of an address is the key that names it. */
  lemma {:induction false} LabelIsTheMatch(addresses: seq<Named>, address: string, a: address, k: nat)
    requires k < |addresses| && Injective(addresses)
    requires Denotes(address, a) && Denotes(addresses[k].address, a)
    ensures Label(addresses, address) == addresses[k].key
  {
    MatchesIff(addresses[0].address, address, a);
    if k > 0 {
      LabelIsTheMatch(addresses[1..], address, a, k - 1);
    }
  }

  lemma {:induction false} NoMatchNoLabel(addresses: seq<Named>, address: string, a: address)
    requires Denotes(address, a)
    requires forall i :: 0 <= i < |addresses| ==> !Denotes(addresses[i].address, a)
    ensures Label(addresses, address) == UNKNOWN
  {
    if addresses != [] {
      MatchesIff(addresses[0].address, address, a);
      NoMatchNoLabel(addresses[1..], address, a);
    }
  }

  /** Of several keys that name one address the first is the label. */
  lemma {:induction false} LabelIsTheFirstMatch(addresses: seq<Named>, address: string, a: address, k: nat)
    requires k < |addresses| && Denotes(address, a) && Denotes(addresses[k].address, a)
    requires forall i :: 0 <= i < k ==> !Denotes(addresses[i].address, a)
    ensures Label(addresses, address) == addresses[k].key
  {
    MatchesIff(addresses[0].address, address, a);
    if k > 0 {
      LabelIsTheFirstMatch(addresses[1..], address, a, k - 1);
    }
  }

  /**
   The label found for a guard's action is the one key whose address is the deposit the action
   withdraws from, and ??? when no key names it.
   */
  lemma {:induction false} ActionIsLabelledByItsDeposit(
    keccak: Keccak, addresses: seq<Named>, deposit: address, destination: address, amount: word)
    requires Injective(addresses)
    ensures var data := Hexlify(
              EncodeCall(keccak, WITHDRAW_TO_SAFE_ADDRESS, WithdrawVals(deposit, destination, amount)));
            && |data| >= 202
            && (forall k :: 0 <= k < |addresses| && Denotes(addresses[k].address, deposit) ==>
                  Label(addresses, DepositAddress(data)) == addresses[k].key)
            && ((forall k :: 0 <= k < |addresses| ==> !Denotes(addresses[k].address, deposit)) ==>
                  Label(addresses, DepositAddress(data)) == "???")
  {
    SlicesReadArguments(keccak, WITHDRAW_TO_SAFE_ADDRESS, deposit, destination, amount, [Num(0), Num(0)]);
    assert [Num(deposit), Num(destination), Num(amount)] + [Num(0), Num(0)] ==
           WithdrawVals(deposit, destination, amount);
    var s := Hexlify(BigEndian(deposit, 20));
    ParseDigitsRoundTrip(BigEndian(deposit, 20));
    forall k | 0 <= k < |addresses| && Denotes(addresses[k].address, deposit)
      ensures Label(addresses, s) == addresses[k].key
    {
      LabelIsTheMatch(addresses, s, deposit, k);
    }
    if forall k :: 0 <= k < |addresses| ==> !Denotes(addresses[k].address, deposit) {
      NoMatchNoLabel(addresses, s, deposit);
    }
  }
}
