/** The meaning of a list of contract calls, over any state of the chain's contracts. */
module Calls {
  import opened Bytes

  datatype Call = Call(target: address, value: word, data: seq<byte>)

  /** keccak256, of which only the result's width is used. */
  type Keccak = seq<byte> -> word

  /** What one call does to the contracts' state W; None is a revert. */
  type Step<!W> = (W, Call) -> Option<W>

  /** The first four bytes of a signature's hash. */
  function Selector(keccak: Keccak, signature: text): (s: seq<byte>)
    ensures |s| == 4
  {
    BigEndian(keccak(signature), 32)[..4]
  }

  /** All calls in order, or None when one of them reverts. */
  function Fold<W>(step: Step<W>, w: W, calls: seq<Call>): Option<W> {
    if calls == [] then Some(w)
    else
      match step(w, calls[0])
      case None => None
      case Some(next) => Fold(step, next, calls[1..])
  }

  lemma {:induction false} FoldConcat<W>(step: Step<W>, w: W, a: seq<Call>, b: seq<Call>)
    ensures Fold(step, w, a + b) ==
            (match Fold(step, w, a) case None => None case Some(mid) => Fold(step, mid, b))
  {
    if a == [] {
      assert a + b == b;
    } else {
      assert (a + b)[1..] == a[1..] + b;
      match step(w, a[0])
      case None =>
      case Some(next) => FoldConcat(step, next, a[1..], b);
    }
  }

  lemma FoldPrefix<W>(step: Step<W>, w: W, calls: seq<Call>, n: nat)
    requires n <= |calls| && Fold(step, w, calls).Some?
    ensures Fold(step, w, calls[..n]).Some?
  {
    assert calls == calls[..n] + calls[n..];
    FoldConcat(step, w, calls[..n], calls[n..]);
  }

  lemma FoldNext<W>(step: Step<W>, w: W, calls: seq<Call>, n: nat)
    requires n < |calls|
    ensures Fold(step, w, calls[..n + 1]) ==
            (match Fold(step, w, calls[..n]) case None => None case Some(mid) => step(mid, calls[n]))
  {
    assert calls[..n + 1] == calls[..n] + [calls[n]];
    FoldConcat(step, w, calls[..n], [calls[n]]);
  }

  /** The calls go through up to the k-th, which reverts unless it is past the last. */
  ghost predicate StopsAt<W>(step: Step<W>, w: W, calls: seq<Call>, k: nat) {
    && k <= |calls| && Fold(step, w, calls[..k]).Some?
    && (k < |calls| ==> Fold(step, w, calls[..k + 1]).None?)
  }

  lemma StopIsUnique<W>(step: Step<W>, w: W, calls: seq<Call>, i: nat, k: nat)
    requires StopsAt(step, w, calls, i) && StopsAt(step, w, calls, k)
    ensures i == k
  {
    if i < k {
      assert calls[..k][..i + 1] == calls[..i + 1];
      FoldPrefix(step, w, calls[..k], i + 1);
    } else if k < i {
      assert calls[..i][..k + 1] == calls[..k + 1];
      FoldPrefix(step, w, calls[..i], k + 1);
    }
  }
}
