/**
 The Solidity Contract ABI Specification, section "Formal Specification of the Encoding",
 for the types the proposal pipeline uses: one-word static values (address, uint256, bytes32,
 bool), byte strings (bytes, string) and arrays of any of these, nested to any depth.
 */
module Abi {
  import opened Bytes

  /** The first four take one word each; Blob is the type bytes, and Str the type string. */
  datatype Ty = Address | Uint256 | Bytes32 | Bool | Blob | Str | Array(elem: Ty)

  datatype Val = Num(n: nat) | Data(bytes: seq<byte>) | List(items: seq<Val>)

  predicate IsWord(t: Ty) {
    t.Address? || t.Uint256? || t.Bytes32? || t.Bool?
  }

  predicate IsBlob(t: Ty) {
    t.Blob? || t.Str?
  }

  /** How many values a one-word type has. */
  function Limit(t: Ty): (n: nat)
    ensures n <= WORDS
  {
    if t.Address? then ADDRESSES else if t.Bool? then 2 else WORDS
  }

  predicate HasType(v: Val, t: Ty)
    decreases v
  {
    match v
    case Num(n) => IsWord(t) && n < Limit(t)
    case Data(_) => IsBlob(t)
    case List(items) => t.Array? && forall i | 0 <= i < |items| :: HasType(items[i], t.elem)
  }

  predicate HaveTypes(vs: seq<Val>, ts: seq<Ty>) {
    |vs| == |ts| && forall i | 0 <= i < |vs| :: HasType(vs[i], ts[i])
  }

  // ---------- Encoding ----------

  function Encode(v: Val): (e: seq<byte>)
    ensures |e| >= 32
    decreases v, 1
  {
    match v
    case Num(n) => BigEndian(n, 32)
    case Data(b) => BigEndian(|b|, 32) + b + Zeros(Padding(|b|))
    case List(items) => BigEndian(|items|, 32) + EncodeTuple(items)
  }

  /** Heads first, then the tails the heads point at; offsets count from the tuple's start. */
  function EncodeTuple(vs: seq<Val>): seq<byte>
    decreases vs, 1
  {
    Heads(vs, 32 * |vs|) + Tails(vs)
  }

  /** One word per component: the value itself, or the offset of its tail. */
  function Heads(vs: seq<Val>, offset: nat): (e: seq<byte>)
    ensures |e| == 32 * |vs|
    decreases vs, 0
  {
    if vs == [] then []
    else BigEndian(HeadWord(vs[0], offset), 32) + Heads(vs[1..], After(vs[0], offset))
  }

  function HeadWord(v: Val, offset: nat): nat {
    if v.Num? then v.n else offset
  }

  /** Where the next tail starts once v's tail, if it has one, is at the offset. */
  function After(v: Val, offset: nat): nat
    decreases v, 2
  {
    if v.Num? then offset else offset + |Encode(v)|
  }

  function Tails(vs: seq<Val>): seq<byte>
    decreases vs, 0
  {
    if vs == [] then []
    else if vs[0].Num? then Tails(vs[1..])
    else Encode(vs[0]) + Tails(vs[1..])
  }

  // ---------- The encoded bytes ----------

  lemma FirstComponent(v: Val, rest: seq<Val>, offset: nat)
    ensures Heads([v] + rest, offset) == BigEndian(HeadWord(v, offset), 32) + Heads(rest, After(v, offset))
    ensures Tails([v] + rest) == if v.Num? then Tails(rest) else Encode(v) + Tails(rest)
  {
    assert ([v] + rest)[1..] == rest;
  }

  /** A byte string takes its length in one word, itself, and fewer than 32 zeros up to a whole word. */
  lemma BytesLayout(b: seq<byte>) returns (k: nat)
    ensures k < 32 && (|b| + k) % 32 == 0
    ensures Encode(Data(b)) == BigEndian(|b|, 32) + b + seq(k, i => 0)
  {
    k := Padding(|b|);
    assert Zeros(k) == seq(k, i => 0);
  }

  /** What the dynamic ones of the first i components take in all. */
  function DynamicBefore(vs: seq<Val>, i: nat): nat
    requires i <= |vs|
  {
    if i == 0 then 0 else DynamicBefore(vs, i - 1) + if vs[i - 1].Num? then 0 else |Encode(vs[i - 1])|
  }

  lemma {:induction false} DynamicFirst(vs: seq<Val>, i: nat)
    requires i < |vs|
    ensures DynamicBefore(vs, i + 1) == (if vs[0].Num? then 0 else |Encode(vs[0])|) + DynamicBefore(vs[1..], i)
  {
    if i > 0 {
      DynamicFirst(vs, i - 1);
    }
  }

  /** The part is in the bytes from an index on. */
  ghost predicate LiesAt(part: seq<byte>, buf: seq<byte>, at: nat) {
    at + |part| <= |buf| && buf[at..at + |part|] == part
  }

  lemma LiesInFirst(part: seq<byte>, a: seq<byte>, b: seq<byte>, at: nat)
    requires LiesAt(part, a, at)
    ensures LiesAt(part, a + b, at)
  {
    assert (a + b)[at..at + |part|] == a[at..at + |part|];
  }

  lemma LiesInSecond(part: seq<byte>, a: seq<byte>, b: seq<byte>, at: nat)
    requires LiesAt(part, b, at)
    ensures LiesAt(part, a + b, |a| + at)
  {
    assert (a + b)[|a| + at..|a| + at + |part|] == b[at..at + |part|];
  }

  lemma {:induction false} HeadsAt(vs: seq<Val>, offset: nat, i: nat)
    requires i < |vs|
    ensures LiesAt(BigEndian(HeadWord(vs[i], offset + DynamicBefore(vs, i)), 32), Heads(vs, offset), 32 * i)
  {
    var next := After(vs[0], offset);
    var first, rest := BigEndian(HeadWord(vs[0], offset), 32), Heads(vs[1..], next);
    if i == 0 {
      LiesInFirst(first, first, rest, 0);
    } else {
      HeadsAt(vs[1..], next, i - 1);
      DynamicFirst(vs, i - 1);
      var head := BigEndian(HeadWord(vs[i], offset + DynamicBefore(vs, i)), 32);
      assert next + DynamicBefore(vs[1..], i - 1) == offset + DynamicBefore(vs, i);
      assert LiesAt(head, rest, 32 * (i - 1));
      LiesInSecond(head, first, rest, 32 * (i - 1));
    }
  }

  lemma {:induction false} TailsSize(vs: seq<Val>)
    ensures |Tails(vs)| == DynamicBefore(vs, |vs|)
  {
    if vs != [] {
      TailsSize(vs[1..]);
      DynamicFirst(vs, |vs| - 1);
    }
  }

  lemma {:induction false} TailsAt(vs: seq<Val>, i: nat)
    requires i < |vs| && !vs[i].Num?
    ensures LiesAt(Encode(vs[i]), Tails(vs), DynamicBefore(vs, i))
  {
    if i == 0 {
      LiesInFirst(Encode(vs[0]), Encode(vs[0]), Tails(vs[1..]), 0);
    } else {
      TailsAt(vs[1..], i - 1);
      DynamicFirst(vs, i - 1);
      if !vs[0].Num? {
        LiesInSecond(Encode(vs[i]), Encode(vs[0]), Tails(vs[1..]), DynamicBefore(vs[1..], i - 1));
      }
    }
  }

  /**
   Component i of a tuple has one word of head: the number itself, or where its encoding starts, right
   after the heads and the earlier dynamic components. Nothing else is in the encoding.
   */
  lemma {:induction false} TupleLayout(vs: seq<Val>, i: nat)
    requires i < |vs|
    ensures var at := 32 * |vs| + DynamicBefore(vs, i);
            && |EncodeTuple(vs)| == 32 * |vs| + DynamicBefore(vs, |vs|)
            && LiesAt(BigEndian(if vs[i].Num? then vs[i].n else at, 32), EncodeTuple(vs), 32 * i)
            && (!vs[i].Num? ==> LiesAt(Encode(vs[i]), EncodeTuple(vs), at))
  {
    var heads, tails := Heads(vs, 32 * |vs|), Tails(vs);
    TailsSize(vs);
    HeadsAt(vs, 32 * |vs|, i);
    LiesInFirst(BigEndian(HeadWord(vs[i], 32 * |vs| + DynamicBefore(vs, i)), 32), heads, tails, 32 * i);
    if !vs[i].Num? {
      TailsAt(vs, i);
      LiesInSecond(Encode(vs[i]), heads, tails, DynamicBefore(vs, i));
    }
  }

  /** An array is its length in one word and then the tuple of its items; a number is one word. */
  lemma ArrayLayout(items: seq<Val>, n: nat)
    ensures Encode(List(items))[..32] == BigEndian(|items|, 32)
    ensures Encode(List(items))[32..] == EncodeTuple(items)
    ensures Encode(Num(n)) == BigEndian(n, 32)
  {
  }

  // ---------- Function selectors ----------

  function TypeName(t: Ty): string {
    match t
    case Address => "address"
    case Uint256 => "uint256"
    case Bytes32 => "bytes32"
    case Bool => "bool"
    case Blob => "bytes"
    case Str => "string"
    case Array(elem) => TypeName(elem) + "[]"
  }

  function TypeNames(ts: seq<Ty>): string {
    if ts == [] then ""
    else if |ts| == 1 then TypeName(ts[0])
    else TypeName(ts[0]) + "," + TypeNames(ts[1..])
  }

  /** A function's name with the parenthesised list of its parameter types. */
  function Signature(name: string, ts: seq<Ty>): text {
    Ascii(name + "(" + TypeNames(ts) + ")")
  }

  // ---------- Decoding ----------

  function Depth(t: Ty): nat {
    if t.Array? then 1 + Depth(t.elem) else 0
  }

  function ReadWord(buf: seq<byte>, at: nat): Option<word> {
    if at + 32 <= |buf| then WordSizes(); Some(FromBigEndian(buf[at..at + 32])) else None
  }

  /** Reads a value of type t whose encoding starts the buffer; what follows it is ignored. */
  function Decode(t: Ty, buf: seq<byte>): Option<Val>
    decreases Depth(t), 0
  {
    match ReadWord(buf, 0)
    case None => None
    case Some(n) =>
      if IsWord(t) then (if n < Limit(t) then Some(Num(n)) else None)
      else if IsBlob(t) then (if 32 + n + Padding(n) <= |buf| then Some(Data(buf[32..32 + n])) else None)
      else if 32 + 32 * n > |buf| then None
      else
        match DecodeItems(seq(n, i => t.elem), 0, buf[32..], Depth(t.elem))
        case None => None
        case Some(items) => Some(List(items))
  }

  /** Components i and up of a tuple that starts the buffer. */
  function DecodeItems(ts: seq<Ty>, i: nat, buf: seq<byte>, ghost depth: nat): Option<seq<Val>>
    requires i <= |ts|
    requires forall k | 0 <= k < |ts| :: Depth(ts[k]) <= depth
    decreases depth, |ts| - i + 1
  {
    if i == |ts| then Some([])
    else
      match DecodeItem(ts[i], i, buf)
      case None => None
      case Some(v) =>
        match DecodeItems(ts, i + 1, buf, depth)
        case None => None
        case Some(rest) => Some([v] + rest)
  }

  function DecodeItem(t: Ty, i: nat, buf: seq<byte>): Option<Val>
    decreases Depth(t), 1
  {
    match ReadWord(buf, 32 * i)
    case None => None
    case Some(n) =>
      if IsWord(t) then (if n < Limit(t) then Some(Num(n)) else None)
      else if n <= |buf| then Decode(t, buf[n..])
      else None
  }

  ghost function MaxDepth(ts: seq<Ty>): (d: nat)
    ensures forall k | 0 <= k < |ts| :: Depth(ts[k]) <= d
  {
    if ts == [] then 0
    else
      var d := MaxDepth(ts[1..]);
      assert forall k | 1 <= k < |ts| :: ts[k] == ts[1..][k - 1];
      if Depth(ts[0]) > d then Depth(ts[0]) else d
  }

  function DecodeTuple(ts: seq<Ty>, buf: seq<byte>): Option<seq<Val>> {
    DecodeItems(ts, 0, buf, MaxDepth(ts))
  }

  // ---------- What is decoded ----------

  /** A decoded value has the type it was decoded as. */
  lemma {:induction false} DecodedHasType(t: Ty, buf: seq<byte>)
    requires Decode(t, buf).Some?
    ensures HasType(Decode(t, buf).value, t)
    decreases Depth(t), 0
  {
    if t.Array? {
      var n := ReadWord(buf, 0).value;
      DecodedItemsHaveTypes(seq(n, i => t.elem), 0, buf[32..], Depth(t.elem));
    }
  }

  lemma {:induction false} DecodedItemsHaveTypes(ts: seq<Ty>, i: nat, buf: seq<byte>, depth: nat)
    requires i <= |ts| && forall k | 0 <= k < |ts| :: Depth(ts[k]) <= depth
    requires DecodeItems(ts, i, buf, depth).Some?
    ensures HaveTypes(DecodeItems(ts, i, buf, depth).value, ts[i..])
    decreases depth, |ts| - i + 1
  {
    if i < |ts| {
      var n := ReadWord(buf, 32 * i).value;
      if !IsWord(ts[i]) {
        DecodedHasType(ts[i], buf[n..]);
      }
      DecodedItemsHaveTypes(ts, i + 1, buf, depth);
      OneMoreTyped(DecodeItem(ts[i], i, buf).value, ts[i], DecodeItems(ts, i + 1, buf, depth).value, ts[i + 1..]);
      assert ts[i..] == [ts[i]] + ts[i + 1..];
    }
  }

  lemma OneMoreTyped(v: Val, t: Ty, vs: seq<Val>, ts: seq<Ty>)
    requires HasType(v, t) && HaveTypes(vs, ts)
    ensures HaveTypes([v] + vs, [t] + ts)
  {
  }

  /** Decoded bytes stand in the buffer behind their length, with room for the padding. */
  lemma DecodedBytesAreThere(t: Ty, buf: seq<byte>)
    requires IsBlob(t) && Decode(t, buf).Some?
    ensures var b := Decode(t, buf).value.bytes;
            && |Encode(Data(b))| <= |buf|
            && FromBigEndian(buf[..32]) == |b| && buf[32..32 + |b|] == b
  {
    assert buf[0..0 + 32] == buf[..32];
  }

  // ---------- Round trip ----------

  lemma ReadWordOf(n: nat, buf: seq<byte>, at: nat)
    requires n < WORDS
    requires at <= |buf| && BigEndian(n, 32) <= buf[at..]
    ensures ReadWord(buf, at) == Some(n)
  {
    assert buf[at..at + 32] == buf[at..][..32] == BigEndian(n, 32);
    WordSizes();
    BigEndianRoundTrip(n, 32);
  }

  lemma DecodeBytes(b: seq<byte>, t: Ty, buf: seq<byte>)
    requires IsBlob(t) && |Encode(Data(b))| < WORDS && Encode(Data(b)) <= buf
    ensures Decode(t, buf) == Some(Data(b))
  {
    var e := Encode(Data(b));
    assert BigEndian(|b|, 32) <= e;
    ReadWordOf(|b|, buf, 0);
    assert buf[32..32 + |b|] == e[32..32 + |b|] == b;
  }

  /** A value is read back from any buffer that its encoding starts. */
  lemma {:induction false} DecodeEncode(v: Val, t: Ty, buf: seq<byte>)
    requires HasType(v, t)
    requires |Encode(v)| < WORDS
    requires Encode(v) <= buf
    ensures Decode(t, buf) == Some(v)
    decreases v, 1
  {
    match v
    case Num(n) => ReadWordOf(n, buf, 0);
    case Data(b) => DecodeBytes(b, t, buf);
    case List(items) =>
      var e := EncodeTuple(items);
      assert BigEndian(|items|, 32) <= Encode(v);
      ReadWordOf(|items|, buf, 0);
      assert Encode(v)[32..] == e;
      assert e <= buf[32..];
      DecodeEncodeTuple(items, seq(|items|, i => t.elem), buf[32..], Depth(t.elem));
  }

  lemma {:induction false} DecodeEncodeTuple(vs: seq<Val>, ts: seq<Ty>, buf: seq<byte>, depth: nat)
    requires HaveTypes(vs, ts)
    requires forall k | 0 <= k < |ts| :: Depth(ts[k]) <= depth
    requires |EncodeTuple(vs)| < WORDS
    requires EncodeTuple(vs) <= buf
    ensures DecodeItems(ts, 0, buf, depth) == Some(vs)
    decreases vs, 1
  {
    assert buf[0..] == buf;
    PrefixSplit(Heads(vs, 32 * |vs|), Tails(vs), buf, 0);
    DecodeRest(vs, vs, ts, 0, buf, 32 * |vs|, depth);
  }

  /** The heads of the components from i on, and their tails, lie in the buffer where they should. */
  ghost predicate Layout(rest: seq<Val>, i: nat, buf: seq<byte>, off: nat) {
    && 32 * i <= |buf| && Heads(rest, off) <= buf[32 * i..]
    && off <= |buf| && Tails(rest) <= buf[off..]
    && off + |Tails(rest)| < WORDS
  }

  lemma {:induction false} DecodeRest(
    rest: seq<Val>, vs: seq<Val>, ts: seq<Ty>, i: nat, buf: seq<byte>, off: nat, depth: nat)
    requires HaveTypes(vs, ts) && i <= |vs| && rest == vs[i..]
    requires forall k | 0 <= k < |ts| :: Depth(ts[k]) <= depth
    requires Layout(rest, i, buf, off)
    ensures DecodeItems(ts, i, buf, depth) == Some(rest)
    decreases rest, 0
  {
    if rest != [] {
      assert rest[0] == vs[i] && rest[1..] == vs[i + 1..];
      NextLayout(rest, i, buf, off);
      DecodeOne(rest[0], ts[i], i, buf, off);
      DecodeRest(rest[1..], vs, ts, i + 1, buf, After(rest[0], off), depth);
      assert rest == [rest[0]] + rest[1..];
    }
  }

  /** One component, given its head and, when it is dynamic, its tail. */
  lemma {:induction false} DecodeOne(v: Val, t: Ty, i: nat, buf: seq<byte>, off: nat)
    requires HasType(v, t)
    requires 32 * i <= |buf| && off < WORDS && off <= |buf|
    requires BigEndian(HeadWord(v, off), 32) <= buf[32 * i..]
    requires !v.Num? ==> |Encode(v)| < WORDS && Encode(v) <= buf[off..]
    ensures DecodeItem(t, i, buf) == Some(v)
    decreases v, 2
  {
    if v.Num? {
      ReadWordOf(v.n, buf, 32 * i);
    } else {
      ReadWordOf(off, buf, 32 * i);
      DecodeEncode(v, t, buf[off..]);
    }
  }

  lemma PrefixSplit(a: seq<byte>, b: seq<byte>, buf: seq<byte>, at: nat)
    requires at <= |buf| && a + b <= buf[at..]
    ensures a <= buf[at..]
    ensures at + |a| <= |buf| && b <= buf[at + |a|..]
  {
    assert (a + b)[..|a|] == a && (a + b)[|a|..] == b;
    assert buf[at + |a|..] == buf[at..][|a|..];
  }

  lemma NextLayout(rest: seq<Val>, i: nat, buf: seq<byte>, off: nat)
    requires rest != [] && Layout(rest, i, buf, off)
    ensures BigEndian(HeadWord(rest[0], off), 32) <= buf[32 * i..]
    ensures !rest[0].Num? ==> |Encode(rest[0])| < WORDS && Encode(rest[0]) <= buf[off..]
    ensures Layout(rest[1..], i + 1, buf, After(rest[0], off))
  {
    PrefixSplit(BigEndian(HeadWord(rest[0], off), 32), Heads(rest[1..], After(rest[0], off)), buf, 32 * i);
    if !rest[0].Num? {
      PrefixSplit(Encode(rest[0]), Tails(rest[1..]), buf, off);
    }
  }

  /** Decoding inverts encoding for every typed tuple that fits a 256-bit address space. */
  lemma TupleRoundTrip(vs: seq<Val>, ts: seq<Ty>)
    requires HaveTypes(vs, ts)
    requires |EncodeTuple(vs)| < WORDS
    ensures DecodeTuple(ts, EncodeTuple(vs)) == Some(vs)
  {
    DecodeEncodeTuple(vs, ts, EncodeTuple(vs), MaxDepth(ts));
  }

  /** Two tuples of the same types with the same encoding are the same tuple. */
  lemma EncodeTupleInjective(vs: seq<Val>, ws: seq<Val>, ts: seq<Ty>)
    requires HaveTypes(vs, ts) && HaveTypes(ws, ts)
    requires |EncodeTuple(vs)| < WORDS
    requires EncodeTuple(vs) == EncodeTuple(ws)
    ensures vs == ws
  {
    TupleRoundTrip(vs, ts);
    TupleRoundTrip(ws, ts);
  }
}
