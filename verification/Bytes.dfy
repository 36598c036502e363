/** Bytes, 32-byte big-endian words and the small shared wrappers. */
module Bytes {

  datatype Option<+T> = None | Some(value: T)

  datatype Result<+R, +E> = Success(value: R) | Failure(error: E)

  type byte = b: int | 0 <= b < 256

  /** 256 to the power k: the number of values k bytes can hold. */
  function Pow256(k: nat): (p: nat)
    ensures p >= 1
  {
    if k == 0 then 1 else 256 * Pow256(k - 1)
  }

  /** The number of 256-bit machine words. */
  const WORDS: nat := 0x1_0000000000000000_0000000000000000_0000000000000000_0000000000000000

  /** The number of 20-byte addresses. */
  const ADDRESSES: nat := 0x1_0000000000_0000000000_0000000000_0000000000

  type word = n: nat | n < WORDS
    witness 0

  type address = n: nat | n < ADDRESSES
    witness 0

  /** UTF-8 bytes of a text. */
  type text = seq<byte>

  /** The bytes of a text of plain ASCII characters. */
  function Ascii(s: string): text {
    seq(|s|, i requires 0 <= i < |s| => s[i] as int % 256)
  }

  /** Read as characters, the bytes are the text again. */
  lemma AsciiReadsBack(s: string)
    requires forall c | c in s :: c < 128 as char
    ensures seq(|Ascii(s)|, i requires 0 <= i < |Ascii(s)| => Ascii(s)[i] as char) == s
  {
    var b := Ascii(s);
    forall i | 0 <= i < |s|
      ensures b[i] as char == s[i]
    {
      assert s[i] in s;
    }
  }

  lemma WordSizes()
    ensures Pow256(32) == WORDS && Pow256(20) == ADDRESSES
  {
    assert Pow256(8) == 0x1_0000000000000000;
    assert Pow256(16) == 0x1_0000000000000000_0000000000000000;
    assert Pow256(20) == ADDRESSES;
    assert Pow256(24) == 0x1_0000000000000000_0000000000000000_0000000000000000;
  }

  /** The low k bytes of n, most significant first. */
  function BigEndian(n: nat, k: nat): (s: seq<byte>)
    ensures |s| == k
  {
    if k == 0 then [] else BigEndian(n / 256, k - 1) + [n % 256]
  }

  /** The number a byte string denotes. */
  function FromBigEndian(s: seq<byte>): (n: nat)
    ensures n < Pow256(|s|)
  {
    if s == [] then 0 else FromBigEndian(s[..|s| - 1]) * 256 + s[|s| - 1]
  }

  lemma {:induction false} BigEndianRoundTrip(n: nat, k: nat)
    requires n < Pow256(k)
    ensures FromBigEndian(BigEndian(n, k)) == n
  {
    if k > 0 {
      assert n / 256 < Pow256(k - 1);
      BigEndianRoundTrip(n / 256, k - 1);
      assert BigEndian(n, k)[..k - 1] == BigEndian(n / 256, k - 1);
    }
  }

  /** The last j of k bytes are the j-byte encoding of the same number. */
  lemma {:induction false} BigEndianSuffix(n: nat, k: nat, j: nat)
    requires j <= k
    ensures BigEndian(n, k)[k - j..] == BigEndian(n, j)
  {
    if j > 0 {
      BigEndianSuffix(n / 256, k - 1, j - 1);
      assert BigEndian(n, k)[k - j..] == BigEndian(n / 256, k - 1)[k - j..] + [n % 256];
    }
  }

  /** The byte at position i counts the multiples of its power of 256. */
  lemma {:induction false} BigEndianAt(n: nat, k: nat, i: nat)
    requires i < k
    ensures BigEndian(n, k)[i] == n / Pow256(k - 1 - i) % 256
  {
    if i < k - 1 {
      BigEndianAt(n / 256, k - 1, i);
      DivideTwice(n, Pow256(k - 2 - i));
      assert BigEndian(n, k)[i] == BigEndian(n / 256, k - 1)[i];
    }
  }

  lemma DivideTwice(n: nat, p: nat)
    requires p > 0
    ensures n / 256 / p == n / (256 * p)
  {
    var q := n / 256 / p;
    var r := n / 256 - q * p;
    assert n == 256 * (q * p + r) + n % 256;
    assert 256 * (q * p) == q * (256 * p);
    assert 0 <= 256 * r + n % 256 < 256 * p;
    QuotientIs(n, 256 * p, q, 256 * r + n % 256);
  }

  lemma QuotientIs(n: nat, d: nat, q: nat, r: nat)
    requires d > 0 && r < d && n == q * d + r
    ensures n / d == q
  {
    var x := n / d - q;
    assert n == (n / d) * d + n % d;
    assert x * d == r - n % d by {
      assert (n / d) * d - q * d == x * d;
    }
    NoSmallMultiple(x, d);
  }

  lemma NoSmallMultiple(x: int, d: nat)
    ensures x >= 1 ==> x * d >= d
    ensures x <= -1 ==> x * d <= -(d as int)
  {
    if x >= 1 {
      assert x * d == d + (x - 1) * d;
    } else if x <= -1 {
      assert x * d == -(d as int) + (x + 1) * d;
    }
  }

  function Zeros(k: nat): (s: seq<byte>)
    ensures |s| == k
  {
    seq(k, i => 0)
  }

  /** Number of zero bytes that bring n bytes to a multiple of 32. */
  function Padding(n: nat): (p: nat)
    ensures p < 32 && (n + p) % 32 == 0
  {
    (32 - n % 32) % 32
  }
}
