/** The scenarios of the pallet's unit tests (pallets/fixed-swap/src/tests.rs),
    replayed against the model of the code as it is written. Where the
    code and the tests disagree, the postconditions below state what the
    code does. The runtime is the test one: account 0 (the creator) holds
    100000 of token 1, account 1 (the buyer) holds 100000 of token 2, and
    the pool sells 100 of token 1 for 200 of token 2 over 50 blocks. */
module Scenarios {
  import opened Bounded
  import opened Dispatch
  import opened Currency
  import opened FixedSwap

  const CREATOR: AccountId := 0
  const BUYER: AccountId := 1
  const TOKEN0: TokenId := 1
  const TOKEN1: TokenId := 2
  const NAME: seq<bv8> := [0x73, 0x77, 0x61, 0x70]  // "swap"

  function Genesis(): Ledger {
    Ledger(map[(TOKEN0, CREATOR) := 100000, (TOKEN1, BUYER) := 100000], map[])
  }

  /** The pool of the tests, created at block 0 in a fresh runtime. */
  method NewTestPool() returns (pallet: Pallet, id: Result<PoolId>)
    ensures fresh(pallet) && pallet.Valid()
    ensures id == Success(0)
    ensures pallet.pools == map[0 := PoolDetails(NAME, CREATOR, TOKEN0, TOKEN1, 100, 200, 0, 0, 50, 0)]
    ensures pallet.poolEndAt == {(50, 0)} && pallet.nextPoolId == 1 && pallet.swaps == map[]
    ensures Free(pallet.ledger, TOKEN0, CREATOR) == 99900 && Reserved(pallet.ledger, TOKEN0, CREATOR) == 100
    ensures SameAt(Genesis(), pallet.ledger, TOKEN1, BUYER) && SameAt(Genesis(), pallet.ledger, TOKEN1, CREATOR)
    ensures SameAt(Genesis(), pallet.ledger, TOKEN0, BUYER)
  {
    pallet := new Pallet(Genesis());
    id := pallet.Create(CREATOR, NAME, TOKEN0, TOKEN1, 100, 200, 50, 0);
  }

  /** create_works: the first pool gets id 0, is indexed under block 50,
      moves the counter to 1 and reserves the creator's 100. */
  method CreateWorks() returns (id: Result<PoolId>, endIndexed: bool, next: PoolId, reserved: nat)
    ensures id == Success(0) && endIndexed && next == 1 && reserved == 100
  {
    var pallet;
    pallet, id := NewTestPool();
    endIndexed := (50, 0) in pallet.poolEndAt;
    next := pallet.nextPoolId;
    reserved := Reserved(pallet.ledger, TOKEN0, CREATOR);
  }

  /** swap_works, as written: at block 0 the pool's end block (50) is not
      below the current block, so the time guard rejects the swap and the
      pool's totals stay (0, 0). The test expects the swap to succeed. */
  method SwapBeforeEndIsRejected() returns (r: Result<()>, swapped: (Balance, Balance), reserved: nat)
    ensures r == Failure(PoolExpired) && swapped == (0, 0) && reserved == 100
  {
    var pallet, _ := NewTestPool();
    r := pallet.Swap(BUYER, 0, 20, 0);
    swapped := (pallet.pools[0].swapped0, pallet.pools[0].swapped1);
    reserved := Reserved(pallet.ledger, TOKEN0, CREATOR);
  }

  /** The test pool after the end-of-block hook has run at its end block
      with no swap made: the whole reserve of 100 is back in free. */
  method SettledTestPool() returns (pallet: Pallet)
    ensures fresh(pallet) && pallet.Valid()
    ensures pallet.pools == map[0 := PoolDetails(NAME, CREATOR, TOKEN0, TOKEN1, 100, 200, 0, 0, 50, 0)]
    ensures pallet.poolEndAt == {} && pallet.swaps == map[]
    ensures Free(pallet.ledger, TOKEN0, CREATOR) == 100000 && Reserved(pallet.ledger, TOKEN0, CREATOR) == 0
    ensures Free(pallet.ledger, TOKEN1, BUYER) == 100000 && Free(pallet.ledger, TOKEN1, CREATOR) == 0
    ensures Free(pallet.ledger, TOKEN0, BUYER) == 0
  {
    var id;
    pallet, id := NewTestPool();
    pallet.OnFinalize(50);
    assert DueAt({(50, 0)}, 50) == {0};
    assert Least({0}) == 0 && {0} - {0} == {};
  }

  /** auto_payout_works, as written: the swap at block 0 is rejected, so
      settlement at block 50 returns the whole reserve; settling block 50
      again changes nothing. */
  method AutoPayout() returns (rejected: Result<()>, reserved: nat, total: nat, again: Ledger, first: Ledger)
    ensures rejected == Failure(PoolExpired)
    ensures reserved == 0 && total == 100000
    ensures again == first
  {
    var pallet, _ := NewTestPool();
    rejected := pallet.Swap(BUYER, 0, 20, 0);
    pallet.OnFinalize(50);
    assert DueAt({(50, 0)}, 50) == {0};
    assert Least({0}) == 0 && {0} - {0} == {};
    reserved := Reserved(pallet.ledger, TOKEN0, CREATOR);
    total := Holding(pallet.ledger, TOKEN0, CREATOR);
    first := pallet.ledger;
    pallet.OnFinalize(50);
    again := pallet.ledger;
  }

  /** A swap the guard admits: after settlement at block 50, a swap of 20
      of token 2 at block 51 prices 10 of token 1. The pool's totals become
      (10, 20); the buyer gets 10 of token 1 out of the creator's free
      balance (the reserve is already empty); the buyer pays 10, not 20, of
      token 2; and the buyer's record stays (0, 0). */
  method SwapAfterEnd() returns (r: Result<()>, swapped: (Balance, Balance), buyer0: nat, creator1: nat, record: SwapRecord)
    ensures r == Success(()) && swapped == (10, 20)
    ensures buyer0 == 10 && creator1 == 10 && record == (0, 0)
  {
    var pallet := SettledTestPool();
    ghost var pool := pallet.pools[0];
    ghost var settled := pallet.ledger;
    assert Price(20, 100, 200) == 10;
    SwapLegsSucceed(settled, pool, BUYER, 10);
    SwapLegsMoveFunds(settled, pool, BUYER, 10);
    r := pallet.Swap(BUYER, 0, 20, 51);
    swapped := (pallet.pools[0].swapped0, pallet.pools[0].swapped1);
    buyer0 := Free(pallet.ledger, TOKEN0, BUYER);
    creator1 := Free(pallet.ledger, TOKEN1, CREATOR);
    record := SwapOf(pallet.swaps, 0, BUYER);
  }
}
