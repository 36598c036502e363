/** Amounts kept by key, where an absent key means zero, and sums over sequences. */
module Amounts {

  function At<K>(m: map<K, nat>, k: K): nat {
    if k in m then m[k] else 0
  }

  function Sum<T>(s: seq<T>, f: T -> nat): nat {
    if s == [] then 0 else Sum(s[..|s| - 1], f) + f(s[|s| - 1])
  }

  lemma {:induction false} SumSplit<T>(s: seq<T>, f: T -> nat, i: nat)
    requires i <= |s|
    ensures Sum(s, f) == Sum(s[..i], f) + Sum(s[i..], f)
    decreases |s|
  {
    if i == |s| {
      assert s[..i] == s && s[i..] == [];
    } else {
      var front := s[..|s| - 1];
      SumSplit(front, f, i);
      assert front[..i] == s[..i] && front[i..] == s[i..][..|s[i..]| - 1];
    }
  }

  lemma SumOne<T>(x: T, f: T -> nat)
    ensures Sum([x], f) == f(x)
  {
    assert [x][..0] == [];
  }

  lemma SumWithout<T>(s: seq<T>, f: T -> nat, k: nat)
    requires k < |s|
    ensures Sum(s[..k] + s[k + 1..], f) + f(s[k]) == Sum(s, f)
  {
    var rest := s[..k] + s[k + 1..];
    SumSplit(s, f, k);
    SumSplit(s[k..], f, 1);
    SumOne(s[k], f);
    SumSplit(rest, f, k);
    assert s[k..][..1] == [s[k]] && s[k..][1..] == s[k + 1..];
    assert rest[..k] == s[..k] && rest[k..] == s[k + 1..];
  }

  lemma ContentsWithout<T>(s: seq<T>, k: nat)
    requires k < |s|
    ensures multiset(s[..k] + s[k + 1..]) == multiset(s) - multiset{s[k]}
  {
    assert s == s[..k] + ([s[k]] + s[k + 1..]);
  }

  /** A sum does not depend on the order of its terms. */
  lemma {:induction false} SumIgnoresOrder<T>(s: seq<T>, t: seq<T>, f: T -> nat)
    requires multiset(s) == multiset(t)
    ensures Sum(s, f) == Sum(t, f)
    decreases |s|
  {
    if s == [] {
      assert |multiset(t)| == 0;
    } else {
      assert s[0] in multiset(s) && s[0] in multiset(t);
      var k :| 0 <= k < |t| && t[k] == s[0];
      SumWithout(s, f, 0);
      SumWithout(t, f, k);
      ContentsWithout(s, 0);
      ContentsWithout(t, k);
      SumIgnoresOrder(s[..0] + s[1..], t[..k] + t[k + 1..], f);
    }
  }
}
