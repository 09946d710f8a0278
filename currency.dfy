/** The multi-currency the pallet escrows through (its `T::Currency`). Its
    implementation is not part of this model; what is here is the contract
    the pallet relies on, taken as an assumption: every (token, account)
    pair has a free and a reserved balance, and
    - `Reserve` fails when the free balance is below the amount, and
      otherwise moves the amount from free to reserved;
    - `Unreserve` never fails and moves min(reserved, amount) back to free;
    - `Transfer` fails when the sender's free balance is below the amount,
      and otherwise moves the amount between the two free balances.
    A failed operation changes nothing. */
module Currency {
  import opened Dispatch

  type AccountId = nat
  type TokenId = nat

  datatype Ledger = Ledger(free: map<(TokenId, AccountId), nat>, reserved: map<(TokenId, AccountId), nat>)

  /** A pair absent from the maps holds nothing. */
  function Free(l: Ledger, t: TokenId, a: AccountId): nat {
    if (t, a) in l.free then l.free[(t, a)] else 0
  }

  function Reserved(l: Ledger, t: TokenId, a: AccountId): nat {
    if (t, a) in l.reserved then l.reserved[(t, a)] else 0
  }

  /** Everything `a` owns of token `t`, free or reserved. */
  function Holding(l: Ledger, t: TokenId, a: AccountId): nat {
    Free(l, t, a) + Reserved(l, t, a)
  }

  /** Both balances of (t, a) are the same in `l` and `l'`. */
  predicate SameAt(l: Ledger, l': Ledger, t: TokenId, a: AccountId) {
    Free(l', t, a) == Free(l, t, a) && Reserved(l', t, a) == Reserved(l, t, a)
  }

  function Reserve(l: Ledger, t: TokenId, a: AccountId, amount: nat): (r: Result<Ledger>)
    ensures r.Success? <==> amount <= Free(l, t, a)
    ensures r.Failure? ==> r.error == InsufficientBalance
    ensures r.Success? ==>
      && Free(r.value, t, a) + amount == Free(l, t, a)
      && Reserved(r.value, t, a) == Reserved(l, t, a) + amount
      && Holding(r.value, t, a) == Holding(l, t, a)
    ensures r.Success? ==> forall t': TokenId, a': AccountId :: (t', a') != (t, a) ==> SameAt(l, r.value, t', a')
  {
    if Free(l, t, a) < amount then Failure(InsufficientBalance)
    else
      Success(Ledger(l.free[(t, a) := Free(l, t, a) - amount],
                     l.reserved[(t, a) := Reserved(l, t, a) + amount]))
  }

  function Unreserve(l: Ledger, t: TokenId, a: AccountId, amount: nat): (r: Ledger)
    ensures amount <= Reserved(l, t, a) ==> Reserved(r, t, a) + amount == Reserved(l, t, a)
    ensures Reserved(l, t, a) < amount ==> Reserved(r, t, a) == 0
    ensures Holding(r, t, a) == Holding(l, t, a)
    ensures forall t': TokenId, a': AccountId :: (t', a') != (t, a) ==> SameAt(l, r, t', a')
  {
    var moved := if amount <= Reserved(l, t, a) then amount else Reserved(l, t, a);
    Ledger(l.free[(t, a) := Free(l, t, a) + moved],
           l.reserved[(t, a) := Reserved(l, t, a) - moved])
  }

  function Transfer(l: Ledger, t: TokenId, from: AccountId, to: AccountId, amount: nat): (r: Result<Ledger>)
    ensures r.Success? <==> amount <= Free(l, t, from)
    ensures r.Failure? ==> r.error == InsufficientBalance
    ensures r.Success? && from != to ==>
      && Free(r.value, t, from) + amount == Free(l, t, from)
      && Free(r.value, t, to) == Free(l, t, to) + amount
    ensures r.Success? && from == to ==> Free(r.value, t, from) == Free(l, t, from)
    ensures r.Success? ==> forall a': AccountId :: Reserved(r.value, t, a') == Reserved(l, t, a')
    ensures r.Success? ==>
      forall t': TokenId, a': AccountId :: (t', a') != (t, from) && (t', a') != (t, to) ==> SameAt(l, r.value, t', a')
  {
    if Free(l, t, from) < amount then Failure(InsufficientBalance)
    else
      var debited := l.free[(t, from) := Free(l, t, from) - amount];
      var credited := debited[(t, to) := Free(Ledger(debited, l.reserved), t, to) + amount];
      Success(Ledger(credited, l.reserved))
  }

  /** Unreserving on behalf of two parties gives the same ledger in either
      order; for the same party, both orders release min(reserved, x + y). */
  lemma UnreserveCommute(l: Ledger, t1: TokenId, a1: AccountId, x: nat, t2: TokenId, a2: AccountId, y: nat)
    ensures Unreserve(Unreserve(l, t1, a1, x), t2, a2, y) == Unreserve(Unreserve(l, t2, a2, y), t1, a1, x)
  {
    if (t1, a1) == (t2, a2) {
      UnreserveTwice(l, t1, a1, x, y);
      UnreserveTwice(l, t1, a1, y, x);
    } else {
      UnreserveApart(l, t1, a1, x, t2, a2, y);
      UnreserveApart(l, t2, a2, y, t1, a1, x);
    }
  }

  /** Unreserves for two different pairs each act as if alone. */
  lemma UnreserveApart(l: Ledger, t1: TokenId, a1: AccountId, x: nat, t2: TokenId, a2: AccountId, y: nat)
    requires (t1, a1) != (t2, a2)
    ensures var m1 := if x <= Reserved(l, t1, a1) then x else Reserved(l, t1, a1);
      var m2 := if y <= Reserved(l, t2, a2) then y else Reserved(l, t2, a2);
      Unreserve(Unreserve(l, t1, a1, x), t2, a2, y)
        == Ledger(l.free[(t1, a1) := Free(l, t1, a1) + m1][(t2, a2) := Free(l, t2, a2) + m2],
                  l.reserved[(t1, a1) := Reserved(l, t1, a1) - m1][(t2, a2) := Reserved(l, t2, a2) - m2])
  {
    assert SameAt(l, Unreserve(l, t1, a1, x), t2, a2);
  }

  /** Two unreserves for one pair release min(reserved, x + y) in all. */
  lemma UnreserveTwice(l: Ledger, t: TokenId, a: AccountId, x: nat, y: nat)
    ensures var m := if x + y <= Reserved(l, t, a) then x + y else Reserved(l, t, a);
      Unreserve(Unreserve(l, t, a, x), t, a, y)
        == Ledger(l.free[(t, a) := Free(l, t, a) + m], l.reserved[(t, a) := Reserved(l, t, a) - m])
  {
  }
}
