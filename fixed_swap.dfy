/** The fixed-rate swap pallet: a creator escrows `total0` of token0 against
    `total1` of token1; buyers pay token1 and receive token0 at the rate
    total0 / total1; at the pool's end block the unsold escrow is released
    back to the creator by the end-of-block hook.

    The pallet's storage is the class `Pallet` below; the state of the
    currency it escrows through is its field `ledger`. The current block
    number, which the source reads from the system pallet, is a parameter. */
module FixedSwap {
  import opened Bounded
  import opened Dispatch
  import opened Currency

  /** The terms of a pool and what has been swapped in it so far. */
  datatype PoolDetails = PoolDetails(
    name: seq<bv8>,
    creator: AccountId,
    token0: TokenId,
    token1: TokenId,
    total0: Balance,
    total1: Balance,
    swapped0: Balance,
    swapped1: Balance,
    duration: BlockNumber,
    startAt: BlockNumber)

  /** What a buyer has received and paid in one pool: (amount0, amount1). */
  type SwapRecord = (Balance, Balance)

  /** The record a value-query storage map yields for an absent key. */
  const DEFAULT_POOL := PoolDetails([], 0, 0, 0, 0, 0, 0, 0, 0, 0)

  function PoolOf(pools: map<PoolId, PoolDetails>, id: PoolId): PoolDetails {
    if id in pools then pools[id] else DEFAULT_POOL
  }

  function SwapOf(swaps: map<(PoolId, AccountId), SwapRecord>, id: PoolId, buyer: AccountId): SwapRecord {
    if (id, buyer) in swaps then swaps[(id, buyer)] else (0, 0)
  }

  /** The block under which a pool is indexed for settlement. */
  function EndAt(p: PoolDetails): (b: BlockNumber)
    ensures p.startAt <= b && p.duration <= b
    ensures p.startAt + p.duration <= MAX_U64 ==> b == p.startAt + p.duration
    ensures MAX_U64 < p.startAt + p.duration ==> b == MAX_U64
  {
    SatAdd(p.startAt, p.duration, MAX_U64)
  }

  /** The pool ids indexed under block `now`. */
  function DueAt(index: set<(BlockNumber, PoolId)>, now: BlockNumber): (ids: set<PoolId>)
    ensures forall id :: id in ids <==> (now, id) in index
  {
    set e | e in index && e.0 == now :: e.1
  }

  // ---------------------------------------------------------------------
  // Pricing and the updates a successful swap makes

  /** token0 a buyer receives for `amount1` of token1: the product is
      saturated at the Balance maximum, then divided with floor. */
  function Price(amount1: Balance, total0: Balance, total1: Balance): (amount0: Balance)
    requires total1 > 0
  {
    var product := SatMul(amount1, total0, MAX_U128);
    DivAtMost(product, total1);
    product / total1
  }

  lemma DivAtMost(x: nat, d: nat)
    requires d > 0
    ensures x / d <= x
  {
    var q, r := x / d, x % d;
    assert x == d * q + r;
    MulLeq(1, d, q);
  }

  /** The price is the floor of the saturated product over total1, and never
      more than the exact rate amount1 * total0 / total1 would give. */
  lemma PriceIsFloor(amount1: Balance, total0: Balance, total1: Balance)
    requires total1 > 0
    ensures var amount0 := Price(amount1, total0, total1);
      && amount0 * total1 <= SatMul(amount1, total0, MAX_U128) < (amount0 + 1) * total1
      && amount0 * total1 <= amount1 * total0
  {
    var product := SatMul(amount1, total0, MAX_U128);
    var q, r := product / total1, product % total1;
    assert product == q * total1 + r;
    assert (q + 1) * total1 == q * total1 + total1;
  }

  /** Paying at most the pool's whole token1 target never prices out more
      than its whole escrow. */
  lemma PriceWithinEscrow(amount1: Balance, total0: Balance, total1: Balance)
    requires 0 < total1 && amount1 <= total1
    ensures Price(amount1, total0, total1) <= total0
  {
    var amount0 := Price(amount1, total0, total1);
    PriceIsFloor(amount1, total0, total1);
    assert amount0 * total1 <= total0 * total1 by {
      MulLeq(amount1, total1, total0);
    }
    CancelFactor(amount0, total0, total1);
  }

  lemma MulLeq(x: nat, y: nat, c: nat)
    requires x <= y
    ensures x * c <= y * c
  {
  }

  lemma CancelFactor(x: nat, y: nat, c: nat)
    requires 0 < c && x * c <= y * c
    ensures x <= y
  {
  }

  /** The pool after a swap of (amount0, amount1): the two cumulative totals
      grow by saturating addition and nothing else changes. */
  function Bought(p: PoolDetails, amount0: Balance, amount1: Balance): (q: PoolDetails)
    ensures q == p.(swapped0 := q.swapped0, swapped1 := q.swapped1)
    ensures p.swapped0 <= q.swapped0 && p.swapped1 <= q.swapped1
    ensures p.swapped0 + amount0 <= MAX_U128 ==> q.swapped0 == p.swapped0 + amount0
    ensures p.swapped1 + amount1 <= MAX_U128 ==> q.swapped1 == p.swapped1 + amount1
    ensures MAX_U128 < p.swapped0 + amount0 ==> q.swapped0 == MAX_U128
    ensures MAX_U128 < p.swapped1 + amount1 ==> q.swapped1 == MAX_U128
    ensures EndAt(q) == EndAt(p)
  {
    p.(swapped0 := SatAdd(p.swapped0, amount0, MAX_U128),
       swapped1 := SatAdd(p.swapped1, amount1, MAX_U128))
  }

  /** The buyer's record after a swap. The source multiplies (with
      saturation) instead of adding, so a record that starts at (0, 0)
      stays (0, 0) whatever is swapped. */
  function RecordSwap(record: SwapRecord, amount0: Balance, amount1: Balance): (r: SwapRecord)
    ensures record == (0, 0) ==> r == (0, 0)
    ensures amount0 == 0 ==> r.0 == 0
  {
    (SatMul(record.0, amount0, MAX_U128), SatMul(record.1, amount1, MAX_U128))
  }

  /** The ledger legs of a swap, in the source's order: unreserve amount0 of
      the creator's token0, transfer amount0 of token0 creator -> buyer,
      transfer amount0 (not amount1) of token1 buyer -> creator. A failed
      leg stops the sequence but the legs before it stay applied. */
  function SwapLegs(l: Ledger, p: PoolDetails, buyer: AccountId, amount0: Balance): (r: (Ledger, Result<()>))
    ensures r.1.Failure? ==> r.1.error == InsufficientBalance
    ensures Reserved(r.0, p.token0, p.creator) == SatSub(Reserved(l, p.token0, p.creator), amount0)
  {
    var l1 := Unreserve(l, p.token0, p.creator, amount0);
    match Transfer(l1, p.token0, p.creator, buyer, amount0)
    case Failure(e) => (l1, Failure(e))
    case Success(l2) =>
      match Transfer(l2, p.token1, buyer, p.creator, amount0)
      case Failure(e) => (l2, Failure(e))
      case Success(l3) => (l3, Success(()))
  }

  /** A complete swap between two different parties in two different
      tokens: the creator's token0 holding falls by amount0 and the buyer's
      free token0 rises by it; the buyer pays amount0 of token1 to the
      creator. */
  lemma SwapLegsMoveFunds(l: Ledger, p: PoolDetails, buyer: AccountId, amount0: Balance)
    requires buyer != p.creator && p.token0 != p.token1
    requires SwapLegs(l, p, buyer, amount0).1.Success?
    ensures var l' := SwapLegs(l, p, buyer, amount0).0;
      && Holding(l', p.token0, p.creator) + amount0 == Holding(l, p.token0, p.creator)
      && Free(l', p.token0, buyer) == Free(l, p.token0, buyer) + amount0
      && Free(l', p.token1, buyer) + amount0 == Free(l, p.token1, buyer)
      && Free(l', p.token1, p.creator) == Free(l, p.token1, p.creator) + amount0
  {
    var l1 := Unreserve(l, p.token0, p.creator, amount0);
    var l2 := Transfer(l1, p.token0, p.creator, buyer, amount0).value;
    assert SameAt(l, l1, p.token0, buyer) && SameAt(l, l1, p.token1, buyer) && SameAt(l, l1, p.token1, p.creator);
    assert SameAt(l1, l2, p.token1, buyer) && SameAt(l1, l2, p.token1, p.creator);
  }

  /** In a pool whose two tokens differ, the legs all succeed exactly when the creator's token0 holding (free, plus the
      reserve the first leg releases) and the buyer's free token1 each cover
      amount0. */
  lemma SwapLegsSucceed(l: Ledger, p: PoolDetails, buyer: AccountId, amount0: Balance)
    requires p.token0 != p.token1
    ensures SwapLegs(l, p, buyer, amount0).1.Success?
      <==> amount0 <= Holding(l, p.token0, p.creator) && amount0 <= Free(l, p.token1, buyer)
  {
    var l1 := Unreserve(l, p.token0, p.creator, amount0);
    assert SameAt(l, l1, p.token1, buyer);
    var l2 := Transfer(l1, p.token0, p.creator, buyer, amount0);
    if l2.Success? {
      assert SameAt(l1, l2.value, p.token1, buyer);
    }
  }

  /** The partial rollback at its worst: when the creator's token0 covers
      amount0 but the buyer's free token1 does not, the swap fails on the
      payment leg after the buyer has already received amount0 of token0,
      and nothing of token1 moves. */
  lemma SwapLegsPaymentFails(l: Ledger, p: PoolDetails, buyer: AccountId, amount0: Balance)
    requires buyer != p.creator && p.token0 != p.token1
    requires amount0 <= Holding(l, p.token0, p.creator) && Free(l, p.token1, buyer) < amount0
    ensures var r := SwapLegs(l, p, buyer, amount0);
      && r.1 == Failure(InsufficientBalance)
      && Free(r.0, p.token0, buyer) == Free(l, p.token0, buyer) + amount0
      && Holding(r.0, p.token0, p.creator) + amount0 == Holding(l, p.token0, p.creator)
      && SameAt(l, r.0, p.token1, buyer) && SameAt(l, r.0, p.token1, p.creator)
  {
    var l1 := Unreserve(l, p.token0, p.creator, amount0);
    assert SameAt(l, l1, p.token0, buyer) && SameAt(l, l1, p.token1, buyer) && SameAt(l, l1, p.token1, p.creator);
    var l2 := Transfer(l1, p.token0, p.creator, buyer, amount0).value;
    assert SameAt(l1, l2, p.token1, buyer) && SameAt(l1, l2, p.token1, p.creator);
  }

  /** A swap, complete or not, touches no balance outside the creator's and
      the buyer's balances of the pool's two tokens. */
  lemma SwapLegsElsewhere(l: Ledger, p: PoolDetails, buyer: AccountId, amount0: Balance, t: TokenId, a: AccountId)
    requires (t, a) !in {(p.token0, p.creator), (p.token0, buyer), (p.token1, buyer), (p.token1, p.creator)}
    ensures SameAt(l, SwapLegs(l, p, buyer, amount0).0, t, a)
  {
    var l1 := Unreserve(l, p.token0, p.creator, amount0);
    assert SameAt(l, l1, t, a);
    var t1 := Transfer(l1, p.token0, p.creator, buyer, amount0);
    if t1.Success? {
      assert SameAt(l1, t1.value, t, a);
      var t2 := Transfer(t1.value, p.token1, buyer, p.creator, amount0);
      if t2.Success? {
        assert SameAt(t1.value, t2.value, t, a);
      }
    }
  }

  // ---------------------------------------------------------------------
  // Settlement of expired pools

  /** What the end-of-block hook does for one drained pool: the unsold part
      of the escrow, total0 minus swapped0 (saturating), is unreserved for
      the creator when it is positive. */
  function Release(l: Ledger, p: PoolDetails): (r: Ledger)
    ensures Reserved(r, p.token0, p.creator) == SatSub(Reserved(l, p.token0, p.creator), SatSub(p.total0, p.swapped0))
    ensures Holding(r, p.token0, p.creator) == Holding(l, p.token0, p.creator)
    ensures forall t: TokenId, a: AccountId :: (t, a) != (p.token0, p.creator) ==> SameAt(l, r, t, a)
  {
    var unswapped0 := SatSub(p.total0, p.swapped0);
    if unswapped0 > 0 then Unreserve(l, p.token0, p.creator, unswapped0) else l
  }

  /** The smallest id of a non-empty set. */
  ghost function Least(ids: set<PoolId>): (m: PoolId)
    requires ids != {}
    ensures m in ids && forall j :: j in ids ==> m <= j
    decreases ids
  {
    var x :| x in ids;
    var others := ids - {x};
    if others == {} then
      assert forall j :: j in ids ==> j in others || j == x;
      x
    else
      var rest := Least(others);
      assert forall j :: j in ids ==> j in others || j == x;
      if x <= rest then x else rest
  }

  /** Releasing every pool of `ids`, taken in increasing id order. Lemma
      SettleAnyFirst shows that the order does not matter. */
  ghost function Settle(l: Ledger, pools: map<PoolId, PoolDetails>, ids: set<PoolId>): Ledger
    decreases ids
  {
    if ids == {} then l
    else
      var m := Least(ids);
      Settle(Release(l, PoolOf(pools, m)), pools, ids - {m})
  }

  /** Releasing two pools gives the same ledger in either order. */
  lemma ReleaseCommute(l: Ledger, p: PoolDetails, q: PoolDetails)
    ensures Release(Release(l, p), q) == Release(Release(l, q), p)
  {
    var up, uq := SatSub(p.total0, p.swapped0), SatSub(q.total0, q.swapped0);
    if up > 0 && uq > 0 {
      UnreserveCommute(l, p.token0, p.creator, up, q.token0, q.creator, uq);
    }
  }

  /** Settlement may start with any pool of the set: the end-of-block hook
      visits index entries in storage order, and the result is the same. */
  lemma {:induction false} SettleAnyFirst(l: Ledger, pools: map<PoolId, PoolDetails>, ids: set<PoolId>, id: PoolId)
    requires id in ids
    ensures Settle(l, pools, ids) == Settle(Release(l, PoolOf(pools, id)), pools, ids - {id})
    decreases ids
  {
    var m := Least(ids);
    if m != id {
      var pm, pid := PoolOf(pools, m), PoolOf(pools, id);
      SettleAnyFirst(Release(l, pm), pools, ids - {m}, id);
      var rest := ids - {id};
      assert Least(rest) == m by {
        var k := Least(rest);
        assert k in ids && m in rest;
      }
      assert ids - {m} - {id} == rest - {m};
      ReleaseCommute(l, pm, pid);
    }
  }

  /** Settlement only moves balances from reserved to free. */
  lemma {:induction false} SettleKeepsHoldings(l: Ledger, pools: map<PoolId, PoolDetails>, ids: set<PoolId>, t: TokenId, a: AccountId)
    ensures Holding(Settle(l, pools, ids), t, a) == Holding(l, t, a)
    ensures Reserved(Settle(l, pools, ids), t, a) <= Reserved(l, t, a)
    decreases ids
  {
    if ids != {} {
      var m := Least(ids);
      SettleKeepsHoldings(Release(l, PoolOf(pools, m)), pools, ids - {m}, t, a);
    }
  }

  /** The escrow key of a pool: whose reserved balance of which token. */
  function EscrowOf(p: PoolDetails): (TokenId, AccountId) {
    (p.token0, p.creator)
  }

  /** A balance that no settled pool escrows is left alone. */
  lemma {:induction false} SettleUntouched(l: Ledger, pools: map<PoolId, PoolDetails>, ids: set<PoolId>, t: TokenId, a: AccountId)
    requires forall j :: j in ids ==> EscrowOf(PoolOf(pools, j)) != (t, a)
    ensures SameAt(l, Settle(l, pools, ids), t, a)
    decreases ids
  {
    if ids != {} {
      var m := Least(ids);
      SettleUntouched(Release(l, PoolOf(pools, m)), pools, ids - {m}, t, a);
    }
  }

  /** The unsold token0 of the pools of `ids` that escrow `t` for `a`,
      summed in the order `Settle` takes them. */
  ghost function UnsoldAt(pools: map<PoolId, PoolDetails>, ids: set<PoolId>, t: TokenId, a: AccountId): nat
    decreases ids
  {
    if ids == {} then 0
    else
      var m := Least(ids);
      var p := PoolOf(pools, m);
      (if EscrowOf(p) == (t, a) then SatSub(p.total0, p.swapped0) else 0) + UnsoldAt(pools, ids - {m}, t, a)
  }

  /** Settlement lowers every reserved balance by the unsold amount of all
      the drained pools escrowing it together (down to zero), even when one
      creator has several pools of the same token ending in the same block. */
  lemma {:induction false} SettleReturnsUnsold(l: Ledger, pools: map<PoolId, PoolDetails>, ids: set<PoolId>, t: TokenId, a: AccountId)
    ensures Reserved(Settle(l, pools, ids), t, a) == SatSub(Reserved(l, t, a), UnsoldAt(pools, ids, t, a))
    decreases ids
  {
    if ids != {} {
      var m := Least(ids);
      SettleReturnsUnsold(Release(l, PoolOf(pools, m)), pools, ids - {m}, t, a);
    }
  }

  // ---------------------------------------------------------------------
  // The pallet's storage and its three transitions

  class Pallet {
    /** NextPoolId: the id the next `create` allocates. */
    var nextPoolId: PoolId
    /** Pool: the terms and cumulative totals of every pool ever created. */
    var pools: map<PoolId, PoolDetails>
    /** Swap: per (pool, buyer) record; an absent key reads as (0, 0). */
    var swaps: map<(PoolId, AccountId), SwapRecord>
    /** PoolEndAt: (end block, pool id) entries still awaiting settlement. */
    var poolEndAt: set<(BlockNumber, PoolId)>
    /** The state of the currency the pallet escrows through. */
    var ledger: Ledger

    /** Every stored pool has an allocated id (below the counter, or the
        counter itself once it has saturated at the PoolId maximum), and
        every index entry names a stored pool and, for ids the saturated
        counter cannot overwrite, sits under that pool's end block. Every
        buyer record is (0, 0): records start there and are only ever
        multiplied. */
    ghost predicate Valid()
      reads this
    {
      && (forall id :: id in pools ==> id < nextPoolId || id == nextPoolId == MAX_U32)
      && (forall e :: e in poolEndAt ==> e.1 in pools && (e.1 == MAX_U32 || e.0 == EndAt(pools[e.1])))
      && (forall k :: k in swaps ==> swaps[k] == (0, 0))
    }

    /** Genesis: no pools, the counter at its default 0. */
    constructor (genesis: Ledger)
      ensures Valid()
      ensures nextPoolId == 0 && pools == map[] && swaps == map[] && poolEndAt == {}
      ensures ledger == genesis
    {
      nextPoolId, pools, swaps, poolEndAt := 0, map[], map[], {};
      ledger := genesis;
    }

    /** `create`: the duration is checked first, the escrow is reserved
        next, and only then are the pool, its index entry and the counter
        written, so every failure leaves all state as it was. */
    method Create(creator: AccountId, name: seq<bv8>, token0: TokenId, token1: TokenId,
                  total0: Balance, total1: Balance, duration: BlockNumber, now: BlockNumber)
      returns (r: Result<PoolId>)
      requires Valid()
      modifies this
      ensures Valid()
      ensures duration == 0 ==> r == Failure(InvalidDuration)
      ensures duration > 0 && Reserve(old(ledger), token0, creator, total0).Failure? ==>
        r == Failure(InsufficientBalance)
      ensures r.Failure? ==> unchanged(this)
      ensures r.Success? <==> duration > 0 && Reserve(old(ledger), token0, creator, total0).Success?
      ensures r.Success? ==>
        && r.value == old(nextPoolId)
        && pools == old(pools)[r.value := PoolDetails(name, creator, token0, token1, total0, total1, 0, 0, duration, now)]
        && poolEndAt == old(poolEndAt) + {(SatAdd(now, duration, MAX_U64), r.value)}
        && nextPoolId == SatAdd(old(nextPoolId), 1, MAX_U32)
        && ledger == Reserve(old(ledger), token0, creator, total0).value
        && swaps == old(swaps)
      ensures r.Success? && old(nextPoolId) < MAX_U32 ==>
        r.value !in old(pools) && nextPoolId == old(nextPoolId) + 1
    {
      if duration == 0 {
        return Failure(InvalidDuration);
      }
      var poolId := nextPoolId;
      var startAt := now;
      var endAt := SatAdd(startAt, duration, MAX_U64);
      var reserved := Reserve(ledger, token0, creator, total0);
      if reserved.Failure? {
        return Failure(reserved.error);
      }
      ledger := reserved.value;
      pools := pools[poolId := PoolDetails(name, creator, token0, token1, total0, total1, 0, 0, duration, startAt)];
      poolEndAt := poolEndAt + {(endAt, poolId)};
      nextPoolId := SatAdd(poolId, 1, MAX_U32);
      r := Success(poolId);
    }

    /** `swap`: the pool is read (a missing id reads as the all-zero pool)
        and handed to `SwapInPool`; its new totals are written back only when
        that succeeds, as `try_mutate` does. Ledger legs that ran before a
        failing transfer stay applied. */
    method Swap(buyer: AccountId, id: PoolId, amount1: Balance, now: BlockNumber) returns (r: Result<()>)
      requires Valid()
      modifies this
      ensures Valid()
      ensures nextPoolId == old(nextPoolId) && poolEndAt == old(poolEndAt)
      ensures var p := PoolOf(old(pools), id);
        if !(EndAt(p) < now) then r == Failure(PoolExpired) && unchanged(this)
        else if p.total1 == 0 then r == Failure(DivisionByZero) && unchanged(this)
        else
          var amount0 := Price(amount1, p.total0, p.total1);
          var legs := SwapLegs(old(ledger), p, buyer, amount0);
          && ledger == legs.0
          && r == legs.1
          && (r.Failure? ==> pools == old(pools) && swaps == old(swaps))
          && (r.Success? ==>
                && id in old(pools)
                && pools == old(pools)[id := Bought(p, amount0, amount1)]
                && swaps == old(swaps)[(id, buyer) := RecordSwap(SwapOf(old(swaps), id, buyer), amount0, amount1)])
      ensures pools.Keys == old(pools).Keys
    {
      var pool := PoolOf(pools, id);
      var mutated := SwapInPool(buyer, id, pool, amount1, now);
      if mutated.Failure? {
        return Failure(mutated.error);
      }
      assert id in pools && EndAt(mutated.value) == EndAt(pools[id]);
      pools := pools[id := mutated.value];
      r := Success(());
    }

    /** The closure `swap` runs on its copy of the pool: the time guard
        passes only when the pool's end block is strictly below `now`; the
        price is computed (a zero total1 is a division by zero); the copy's
        totals grow; then the ledger legs and the buyer's record. */
    method SwapInPool(buyer: AccountId, id: PoolId, pool: PoolDetails, amount1: Balance, now: BlockNumber)
      returns (r: Result<PoolDetails>)
      modifies this`ledger, this`swaps
      ensures if !(EndAt(pool) < now) then r == Failure(PoolExpired) && unchanged(this)
        else if pool.total1 == 0 then r == Failure(DivisionByZero) && unchanged(this)
        else
          var amount0 := Price(amount1, pool.total0, pool.total1);
          var legs := SwapLegs(old(ledger), pool, buyer, amount0);
          && ledger == legs.0
          && (r.Success? <==> legs.1.Success?)
          && (r.Failure? ==> r.error == legs.1.error && swaps == old(swaps))
          && (r.Success? ==>
                && r.value == Bought(pool, amount0, amount1)
                && swaps == old(swaps)[(id, buyer) := RecordSwap(SwapOf(old(swaps), id, buyer), amount0, amount1)])
    {
      if !(EndAt(pool) < now) {
        return Failure(PoolExpired);
      }
      if pool.total1 == 0 {
        return Failure(DivisionByZero);
      }
      var amount0 := Price(amount1, pool.total0, pool.total1);
      var updated := pool.(swapped0 := SatAdd(pool.swapped0, amount0, MAX_U128),
                           swapped1 := SatAdd(pool.swapped1, amount1, MAX_U128));
      var unreserved := Unreserve(ledger, pool.token0, pool.creator, amount0);
      var paid := Transfer(unreserved, pool.token0, pool.creator, buyer, amount0);
      if paid.Failure? {
        assert SwapLegs(ledger, pool, buyer, amount0) == (unreserved, Failure(paid.error));
        ledger := unreserved;
        return Failure(paid.error);
      }
      var received := Transfer(paid.value, pool.token1, buyer, pool.creator, amount0);
      if received.Failure? {
        assert SwapLegs(ledger, pool, buyer, amount0) == (paid.value, Failure(received.error));
        ledger := paid.value;
        return Failure(received.error);
      }
      assert SwapLegs(ledger, pool, buyer, amount0) == (received.value, Success(()));
      ledger := received.value;
      var record := SwapOf(swaps, id, buyer);
      swaps := swaps[(id, buyer) := (SatMul(record.0, amount0, MAX_U128), SatMul(record.1, amount1, MAX_U128))];
      r := Success(updated);
    }

    /** The read-only count `on_initialize` takes of the entries under
        `now`, cast to u32 (which truncates). */
    function OnInitializeCount(now: BlockNumber): (n: nat)
      reads this
      ensures n <= MAX_U32
      ensures |DueAt(poolEndAt, now)| <= MAX_U32 ==> n == |DueAt(poolEndAt, now)|
      ensures DueAt(poolEndAt, now) == {} ==> n == 0
    {
      |DueAt(poolEndAt, now)| % (MAX_U32 + 1)
    }

    /** `on_finalize`: drains every index entry under `now` and releases
        each drained pool's unsold escrow. Entries are visited in storage
        order, which the model leaves unspecified. The loop body never reads
        the index, so the model removes the drained entries before it. */
    method OnFinalize(now: BlockNumber)
      requires Valid()
      modifies this
      ensures Valid()
      ensures forall e :: e in poolEndAt <==> e in old(poolEndAt) && e.0 != now
      ensures pools == old(pools) && swaps == old(swaps) && nextPoolId == old(nextPoolId)
      ensures ledger == Settle(old(ledger), old(pools), DueAt(old(poolEndAt), now))
      ensures forall e :: e in poolEndAt && e.1 != MAX_U32 ==> e.1 !in DueAt(old(poolEndAt), now)
      ensures DueAt(poolEndAt, now) == {}
    {
      var due := DueAt(poolEndAt, now);
      ghost var index := poolEndAt;
      poolEndAt := set e | e in poolEndAt && e.0 != now;
      forall e | e in poolEndAt && e.1 != MAX_U32
        ensures e.1 !in due
      {
        assert e in index && e.0 == EndAt(pools[e.1]) && e.0 != now;
      }
      var settled := ledger;
      var todo := due;
      while todo != {}
        modifies {}
        invariant todo <= due
        invariant Settle(settled, pools, todo) == Settle(ledger, pools, due)
        decreases todo
      {
        var id :| id in todo;
        SettleAnyFirst(settled, pools, todo, id);
        var pool := PoolOf(pools, id);
        var unswapped0 := SatSub(pool.total0, pool.swapped0);
        if unswapped0 > 0 {
          settled := Unreserve(settled, pool.token0, pool.creator, unswapped0);
        }
        todo := todo - {id};
      }
      ledger := settled;
    }
  }
}
