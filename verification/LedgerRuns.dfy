/** Runs of ledger commands in parts, and what single payments do to the rest of a ledger. */
module LedgerRuns {
  import opened Bytes
  import opened Ledger

  lemma {:induction false} RunConcat(env: Env, l: Ledger, a: seq<Command>, b: seq<Command>)
    ensures Run(env, l, a + b) == (match Run(env, l, a) case None => None case Some(r) => Run(env, r, b))
    decreases |a|
  {
    if a == [] {
      assert a + b == b;
    } else {
      assert (a + b)[0] == a[0] && (a + b)[1..] == a[1..] + b;
      match Step(env, l, a[0])
      case None =>
      case Some(next) => RunConcat(env, next, a[1..], b);
    }
  }

  lemma RunOne(env: Env, l: Ledger, c: Command)
    ensures Run(env, l, [c]) == Step(env, l, c)
  {
    assert [c][1..] == [];
    match Step(env, l, c)
    case None =>
    case Some(r) => assert Run(env, r, []) == Some(r);
  }

  lemma RunTwo(env: Env, l: Ledger, c: Command, d: Command)
    ensures Run(env, l, [c, d]) == (match Step(env, l, c) case None => None case Some(r) => Step(env, r, d))
  {
    assert [c, d][1..] == [d];
    match Step(env, l, c)
    case None =>
    case Some(r) => RunOne(env, r, d);
  }

  /** Only these tokens move, and only between these accounts. */
  ghost predicate Same(l: Ledger, r: Ledger, tokens: set<Token>, accounts: set<Account>) {
    && (forall t: Token, a: Account :: t !in tokens || a !in accounts ==> Balance(r, t, a) == Balance(l, t, a))
    && r.supplies == l.supplies
    && r.allowances == l.allowances
  }

  /** One payment and nothing else. */
  ghost predicate PaidTo(l: Ledger, r: Ledger, t: Token, from: Account, to: Account, amount: nat) {
    && Balance(r, t, from) == Balance(l, t, from) - amount
    && Balance(r, t, to) == Balance(l, t, to) + amount
    && Same(l, r, {t}, {from, to})
  }

  lemma {:induction false} TransferEffect(l: Ledger, t: Token, from: Account, to: Account, amount: nat)
    requires from != to
    ensures var r := Transfer(l, t, from, to, amount);
            && (r.Some? <==> amount <= Balance(l, t, from))
            && (r.Some? ==> PaidTo(l, r.value, t, from, to, amount))
  {
    if amount <= Balance(l, t, from) {
      PaymentMoves(l, t, from, to, amount);
    }
  }

  lemma PaymentMoves(l: Ledger, t: Token, from: Account, to: Account, amount: nat)
    requires amount <= Balance(l, t, from) && from != to
    ensures PaidTo(l, l.(balances := Moved(l.balances, t, from, to, amount)), t, from, to, amount)
  {
    var r := l.(balances := Moved(l.balances, t, from, to, amount));
    MovedOnlyHere(l, t, from, to, amount);
    MovedHere(l.balances, t, from, to, amount);
    assert Balance(r, t, from) == Held(r.balances, t, from) && Balance(r, t, to) == Held(r.balances, t, to);
  }

  lemma MovedOnlyHere(l: Ledger, t: Token, from: Account, to: Account, amount: nat)
    requires amount <= Balance(l, t, from)
    ensures Same(l, l.(balances := Moved(l.balances, t, from, to, amount)), {t}, {from, to})
  {
    forall u: Token, a: Account | u !in {t} || a !in {from, to}
      ensures Held(Moved(l.balances, t, from, to, amount), u, a) == Held(l.balances, u, a)
    {
      MovedElsewhere(l.balances, t, from, to, amount, u, a);
    }
  }

  lemma MovedHere(m: Holdings, t: Token, from: Account, to: Account, amount: nat)
    requires amount <= Held(m, t, from) && from != to
    ensures Held(Moved(m, t, from, to, amount), t, from) == Held(m, t, from) - amount
    ensures Held(Moved(m, t, from, to, amount), t, to) == Held(m, t, to) + amount
  {
  }

  lemma MovedElsewhere(m: Holdings, t: Token, from: Account, to: Account, amount: nat, u: Token, a: Account)
    requires amount <= Held(m, t, from) && (u != t || (a != from && a != to))
    ensures Held(Moved(m, t, from, to, amount), u, a) == Held(m, u, a)
  {
  }

  lemma BurnEffect(l: Ledger, holder: Account, amount: nat)
    requires amount <= Balance(l, Fei, holder)
    ensures var r := BurnFei(l, holder, amount);
            && (r.Some? <==> amount <= Supply(l, Fei))
            && (r.Some? ==>
                  && Supply(r.value, Fei) == Supply(l, Fei) - amount
                  && Balance(r.value, Fei, holder) == Balance(l, Fei, holder) - amount
                  && Same(l.(supplies := r.value.supplies), r.value, {Fei}, {holder}))
  {
  }

  // ---------- Allowances ----------

  const ONES96: nat := 0xffffffff_ffffffff_ffffffff

  /** An allowance that transferFrom uses up: not FEI's all ones of 256 bits, nor TRIBE's of 96. */
  predicate UsedUp(l: Ledger, t: Token, owner: Account, spender: Account) {
    if t == Tribe then owner != spender && Allowance(l, t, owner, spender) != ONES96
    else Allowance(l, t, owner, spender) != WORDS - 1
  }

  lemma {:induction false} SpentIff(l: Ledger, t: Token, owner: Account, spender: Account, amount: nat)
    ensures Spent(l, t, owner, spender, amount).Some? <==>
              (UsedUp(l, t, owner, spender) ==> amount <= Allowance(l, t, owner, spender))
  {
  }

  /** transferFrom needs the balance, and enough of an allowance that is used up; TRIBE moves 96 bits at most. */
  lemma {:induction false} TransferFromIff(
    l: Ledger, t: Token, spender: Account, from: Account, to: Account, amount: nat)
    ensures TransferFrom(l, t, spender, from, to, amount).Some? <==>
              && amount <= Balance(l, t, from)
              && (UsedUp(l, t, from, spender) ==> amount <= Allowance(l, t, from, spender))
              && (t == Tribe ==> amount <= ONES96)
  {
    SpentIff(l, t, from, spender, amount);
    var left := Spent(l, t, from, spender, amount);
    if left.Some? {
      TransferIff(l.(allowances := left.value), t, from, to, amount);
    }
  }

  lemma {:induction false} TransferIff(l: Ledger, t: Token, from: Account, to: Account, amount: nat)
    ensures Transfer(l, t, from, to, amount).Some? <==> amount <= Balance(l, t, from)
    ensures Transfer(l, t, from, to, amount).Some? ==>
              Transfer(l, t, from, to, amount).value.allowances == l.allowances
  {
  }

  /** It lowers that allowance by the amount, and no other. */
  lemma {:induction false} AllowanceAfter(
    l: Ledger, t: Token, spender: Account, from: Account, to: Account, amount: nat,
    u: Token, owner: Account, other: Account)
    requires TransferFrom(l, t, spender, from, to, amount).Some?
    ensures Allowance(TransferFrom(l, t, spender, from, to, amount).value, u, owner, other) ==
            if u == t && owner == from && other == spender && UsedUp(l, t, from, spender)
            then Allowance(l, t, from, spender) - amount else Allowance(l, u, owner, other)
  {
    var left := Spent(l, t, from, spender, amount).value;
    TransferIff(l.(allowances := left), t, from, to, amount);
    AllowanceSpent(l, t, from, spender, amount, u, owner, other);
  }

  lemma {:induction false} AllowanceSpent(
    l: Ledger, t: Token, from: Account, spender: Account, amount: nat, u: Token, owner: Account, other: Account)
    requires Spent(l, t, from, spender, amount).Some?
    ensures Allowance(l.(allowances := Spent(l, t, from, spender, amount).value), u, owner, other) ==
            if u == t && owner == from && other == spender && UsedUp(l, t, from, spender)
            then Allowance(l, t, from, spender) - amount else Allowance(l, u, owner, other)
  {
    if UsedUp(l, t, from, spender) {
      SpentIff(l, t, from, spender, amount);
      AllowanceReplaced(l, (t, from, spender), Allowance(l, t, from, spender) - amount, (u, owner, other));
    }
  }

  lemma AllowanceReplaced(l: Ledger, k: (Token, Account, Account), n: nat, j: (Token, Account, Account))
    ensures Allowance(l.(allowances := l.allowances[k := n]), j.0, j.1, j.2) ==
            if j == k then n else Allowance(l, j.0, j.1, j.2)
  {
  }

  /** Where nothing was ever approved nothing can be taken, but by an owner from itself in TRIBE. */
  lemma {:induction false} NothingApprovedNothingTaken(
    l: Ledger, t: Token, spender: Account, from: Account, to: Account, amount: nat)
    requires l.allowances == map[] && amount > 0
    ensures TransferFrom(l, t, spender, from, to, amount).Some? ==> t == Tribe && spender == from
  {
    TransferFromIff(l, t, spender, from, to, amount);
  }

  /** Of a supply that was never minted nothing can be burnt. */
  lemma NothingMintedNothingBurnt(l: Ledger, holder: Account, amount: nat)
    requires l.supplies == map[] && amount > 0
    ensures BurnFei(l, holder, amount).None?
  {
  }

  /** A transfer needs the balance; TRIBE moves 96 bits at most. */
  lemma TransferCommandIff(env: Env, l: Ledger, t: Token, to: Account, amount: nat)
    ensures Step(env, l, TransferCommand(t, to, amount)).Some? <==>
              amount <= Balance(l, t, env.acting) && (t == Tribe ==> amount <= ONES96)
  {
  }

  /** TRIBE records 96 bits: all ones of 256 become all ones of 96, and anything else above is refused. */
  lemma ApprovalIs(t: Token, amount: nat)
    ensures t != Tribe || amount <= ONES96 ==> Approval(t, amount) == Some(amount)
    ensures t == Tribe && amount == WORDS - 1 ==> Approval(t, amount) == Some(ONES96)
    ensures t == Tribe && ONES96 < amount != WORDS - 1 ==> Approval(t, amount).None?
  {
  }

  /** An approval replaces one allowance, and leaves balances and supplies alone. */
  lemma {:induction false} ApproveEffect(
    env: Env, l: Ledger, t: Token, spender: Account, amount: nat, u: Token, owner: Account, other: Account)
    requires Approval(t, amount).Some?
    ensures var r := Step(env, l, ApproveCommand(t, spender, amount));
            && r.Some? && r.value.balances == l.balances && r.value.supplies == l.supplies
            && Allowance(r.value, u, owner, other) ==
               if u == t && owner == env.acting && other == spender then Approval(t, amount).value
               else Allowance(l, u, owner, other)
  {
    AllowanceReplaced(l, (t, env.acting, spender), Approval(t, amount).value, (u, owner, other));
  }

  // ---------- Ratios ----------

  /** A ratio withdrawal takes the whole units of that part of the balance, and refuses to take none. */
  lemma RatioTakesPart(balance: nat, basisPoints: nat)
    ensures Ratio(balance, basisPoints).Some? <==> basisPoints <= 10000 && balance * basisPoints >= 10000
    ensures Ratio(balance, basisPoints).Some? ==>
              var n := Ratio(balance, basisPoints).value;
              10000 * n <= balance * basisPoints < 10000 * (n + 1)
  {
  }
}
