/** Hexadecimal strings, the form in which the scripts hold every byte string. */
module Hex {
  import opened Bytes

  function Digit(n: nat): (c: char)
    requires n < 16
    ensures DigitValue(c) == Some(n)
  {
    if n < 10 then '0' + n as char else 'a' + (n - 10) as char
  }

  function DigitValue(c: char): (r: Option<nat>)
    ensures r.Some? ==> r.value < 16
  {
    if '0' <= c <= '9' then Some(c as int - '0' as int)
    else if 'a' <= c <= 'f' then Some(c as int - 'a' as int + 10)
    else if 'A' <= c <= 'F' then Some(c as int - 'A' as int + 10)
    else None
  }

  function Pair(b: byte): (s: string)
    ensures |s| == 2 && ParsePair(s[0], s[1]) == Some(b)
  {
    [Digit(b / 16), Digit(b % 16)]
  }

  function ParsePair(hi: char, lo: char): Option<byte> {
    match (DigitValue(hi), DigitValue(lo))
    case (Some(h), Some(l)) => Some(16 * h + l)
    case _ => None
  }

  /** Two lower-case digits a byte. */
  function Digits(b: seq<byte>): (s: string)
    ensures |s| == 2 * |b|
  {
    if b == [] then "" else Pair(b[0]) + Digits(b[1..])
  }

  function Hexlify(b: seq<byte>): string {
    "0x" + Digits(b)
  }

  function ParseDigits(s: string): Option<seq<byte>> {
    if s == [] then Some([])
    else if |s| == 1 then None
    else
      match (ParsePair(s[0], s[1]), ParseDigits(s[2..]))
      case (Some(b), Some(rest)) => Some([b] + rest)
      case _ => None
  }

  /** The bytes of a 0x-prefixed string with an even number of digits; anything else is refused. */
  function Arrayify(s: string): Option<seq<byte>> {
    if "0x" <= s then ParseDigits(s[2..]) else None
  }

  function LowerChar(c: char): char {
    if 'A' <= c <= 'Z' then 'a' + (c - 'A') else c
  }

  function LowerCase(s: string): (t: string)
    ensures |t| == |s|
  {
    seq(|s|, i requires 0 <= i < |s| => LowerChar(s[i]))
  }

  // ---------- The digits ----------

  /** Sixteen lower-case digits are written, and their capitals are read as well. */
  lemma DigitTable(n: nat)
    requires n < 16
    ensures Digit(n) == "0123456789abcdef"[n]
    ensures DigitValue("0123456789abcdef"[n]) == DigitValue("0123456789ABCDEF"[n]) == Some(n)
  {
  }

  /** The k-th byte is at its two digits, the high half first. */
  lemma {:induction false} DigitsAt(b: seq<byte>, k: nat)
    requires k < |b|
    ensures Digits(b)[2 * k] == "0123456789abcdef"[b[k] / 16]
    ensures Digits(b)[2 * k + 1] == "0123456789abcdef"[b[k] % 16]
  {
    if k == 0 {
      DigitTable(b[0] / 16);
      DigitTable(b[0] % 16);
    } else {
      DigitsAt(b[1..], k - 1);
    }
  }

  // ---------- Letter case ----------

  const CAPITALS: string := "ABCDEFGHIJKLMNOPQRSTUVWXYZ"
  const SMALL: string := "abcdefghijklmnopqrstuvwxyz"

  /** Capitals become their small letters, and nothing else changes. */
  lemma LowerCharTable(c: char)
    ensures forall k :: 0 <= k < 26 ==> LowerChar(CAPITALS[k]) == SMALL[k]
    ensures c !in CAPITALS ==> LowerChar(c) == c
  {
    if 'A' <= c <= 'Z' {
      assert CAPITALS[c as int - 'A' as int] == c;
    }
  }

  /** A character is one digit in either case exactly when its small letter is the digit written. */
  lemma DigitInAnyCase(c: char, n: nat)
    requires n < 16
    ensures DigitValue(c) == Some(n) <==> LowerChar(c) == Digit(n)
  {
  }

  lemma LowerCaseConcat(s: string, t: string)
    ensures LowerCase(s + t) == LowerCase(s) + LowerCase(t)
  {
  }

  lemma PairIsOfDigits(hi: char, lo: char, b: byte)
    ensures ParsePair(hi, lo) == Some(b) <==> DigitValue(hi) == Some(b / 16) && DigitValue(lo) == Some(b % 16)
  {
  }

  lemma LowerCasePair(hi: char, lo: char, b: byte)
    ensures ParsePair(hi, lo) == Some(b) <==> LowerCase([hi, lo]) == Pair(b)
  {
    DigitInAnyCase(hi, b / 16);
    DigitInAnyCase(lo, b % 16);
    PairIsOfDigits(hi, lo, b);
    var s := LowerCase([hi, lo]);
    assert s == [LowerChar(hi), LowerChar(lo)];
    assert s == Pair(b) <==> s[0] == Digit(b / 16) && s[1] == Digit(b % 16);
  }

  /** Digits read as some bytes exactly when, in small letters, they are how those bytes are written. */
  lemma {:induction false} ParseDigitsIff(s: string, b: seq<byte>)
    ensures ParseDigits(s) == Some(b) <==> LowerCase(s) == Digits(b)
    decreases |s|
  {
    if |s| >= 2 && b != [] {
      ParseDigitsIff(s[2..], b[1..]);
      LowerCasePair(s[0], s[1], b[0]);
      LowerCaseConcat([s[0], s[1]], s[2..]);
      assert s == [s[0], s[1]] + s[2..];
      PrefixesAndRest(LowerCase([s[0], s[1]]), LowerCase(s[2..]), Pair(b[0]), Digits(b[1..]));
      assert b == [b[0]] + b[1..];
    }
  }

  lemma PrefixesAndRest(a: string, s: string, b: string, t: string)
    requires |a| == |b|
    ensures a + s == b + t <==> a == b && s == t
  {
    if a + s == b + t {
      assert (a + s)[..|a|] == a && (b + t)[..|b|] == b;
      assert (a + s)[|a|..] == s && (b + t)[|b|..] == t;
    }
  }

  /**
   A string is read as some bytes exactly when it starts with 0x and is, in small letters, how those
   bytes are written. So digits may be of any case, and anything but whole bytes of digits is refused.
   */
  lemma ArrayifyIff(s: string, b: seq<byte>)
    ensures Arrayify(s) == Some(b) <==> "0x" <= s && LowerCase(s) == Hexlify(b)
  {
    if "0x" <= s {
      ParseDigitsIff(s[2..], b);
      assert s == "0x" + s[2..];
      LowerCaseConcat("0x", s[2..]);
      assert LowerCase("0x") == "0x";
      PrefixesAndRest("0x", LowerCase(s[2..]), "0x", Digits(b));
    }
  }

  /** Two strings that are read differ only in letter case exactly when they are read alike. */
  lemma SameBytesIff(s: string, t: string)
    requires Arrayify(s).Some? && Arrayify(t).Some?
    ensures LowerCase(s) == LowerCase(t) <==> Arrayify(s) == Arrayify(t)
  {
    ArrayifyIff(s, Arrayify(s).value);
    ArrayifyIff(t, Arrayify(t).value);
    if LowerCase(s) == LowerCase(t) {
      HexlifyInjective(Arrayify(s).value, Arrayify(t).value);
    }
  }

  /** The bytes of a string of digits after 0x, whose x may be a capital as well. */
  function Read(s: string): Option<seq<byte>> {
    if |s| >= 2 && s[0] == '0' && (s[1] == 'x' || s[1] == 'X') then ParseDigits(s[2..]) else None
  }

  lemma ReadIff(s: string, b: seq<byte>)
    ensures Read(s) == Some(b) <==> LowerCase(s) == Hexlify(b)
  {
    if |s| >= 2 {
      ParseDigitsIff(s[2..], b);
      assert s == s[..2] + s[2..];
      LowerCaseConcat(s[..2], s[2..]);
      PrefixesAndRest(LowerCase(s[..2]), LowerCase(s[2..]), "0x", Digits(b));
      assert LowerCase(s[..2]) == [LowerChar(s[0]), LowerChar(s[1])];
      assert LowerCase(s[..2]) == "0x" <==> LowerChar(s[0]) == '0' && LowerChar(s[1]) == 'x';
    }
  }

  // ---------- Writing and reading ----------

  lemma {:induction false} ParseDigitsRoundTrip(b: seq<byte>)
    ensures ParseDigits(Digits(b)) == Some(b)
  {
    if b != [] {
      ParseDigitsRoundTrip(b[1..]);
      var d := Digits(b);
      assert d[0] == Pair(b[0])[0] && d[1] == Pair(b[0])[1];
      assert d[2..] == Digits(b[1..]);
      assert b == [b[0]] + b[1..];
    }
  }

  lemma ArrayifyHexlify(b: seq<byte>)
    ensures Arrayify(Hexlify(b)) == Some(b)
  {
    ParseDigitsRoundTrip(b);
  }

  lemma {:induction false} DigitsConcat(a: seq<byte>, b: seq<byte>)
    ensures Digits(a + b) == Digits(a) + Digits(b)
  {
    if a == [] {
      assert a + b == b;
    } else {
      assert (a + b)[1..] == a[1..] + b;
      calc {
        Digits(a + b);
        Pair(a[0]) + Digits(a[1..] + b);
        { DigitsConcat(a[1..], b); }
        Pair(a[0]) + (Digits(a[1..]) + Digits(b));
        Digits(a) + Digits(b);
      }
    }
  }

  /** Joining one hex string to another without its prefix joins the bytes. */
  lemma HexlifySplice(a: seq<byte>, b: seq<byte>)
    ensures Hexlify(a) + Hexlify(b)[2..] == Hexlify(a + b)
  {
    DigitsConcat(a, b);
  }

  /** The source's slice(from, to) on a hex string: the digits of the bytes it covers. */
  lemma HexlifySlice(p: seq<byte>, q: seq<byte>, r: seq<byte>)
    ensures "0x" + Hexlify(p + (q + r))[2 + 2 * |p|..2 + 2 * |p| + 2 * |q|] == Hexlify(q)
  {
    DigitsConcat(p, q + r);
    DigitsConcat(q, r);
    Middle(Digits(p), Digits(q), Digits(r));
    DropPrefix(Digits(p) + (Digits(q) + Digits(r)), 2 * |p|, 2 * |p| + 2 * |q|);
  }

  lemma Middle(p: string, q: string, r: string)
    ensures (p + (q + r))[|p|..|p| + |q|] == q
  {
  }

  lemma DropPrefix(s: string, i: nat, j: nat)
    requires i <= j <= |s|
    ensures ("0x" + s)[2 + i..2 + j] == s[i..j]
  {
  }

  lemma HexlifyInjective(a: seq<byte>, b: seq<byte>)
    requires Hexlify(a) == Hexlify(b)
    ensures a == b
  {
    ArrayifyHexlify(a);
    ArrayifyHexlify(b);
  }

  lemma {:induction false} HexIsOneLine(b: seq<byte>)
    ensures '\n' !in Hexlify(b)
  {
    if b != [] {
      HexIsOneLine(b[1..]);
      assert Digits(b[1..]) == Hexlify(b[1..])[2..];
      assert forall c | c in Digits(b[1..]) :: c in Hexlify(b[1..]);
    }
  }
}
