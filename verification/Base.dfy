// Shared vocabulary: options, replies, and the 64-bit columns the amounts are stored in.
module Base {

  datatype Option<+T> = None | Some(value: T)

  /** What a service call returns: Ok, or the sentinel error the Go code wraps. */
  datatype Reply =
    | Ok
    | BalanceNotFound
    | OptimisticLock
    | TransactionNotFound
    | UniqueViolation
    | InvalidAmount
    | MaxAmountExceeded
    | InsufficientBalance
    | SelfTransfer
    | TransferToMerchant
    | AlreadyCompleted
    | AlreadyFailed
    | UnknownWebhookStatus
    | WebhookAlreadyProcessed
    | GatewayFailure
    | NonRefundable
    | NonRefundableExpired
    | NoPendingRequests
    | MerchantInsufficientBalance

  const TWO63: int := 0x8000_0000_0000_0000

  /** A BIGINT column. */
  type I64 = x: int | -TWO63 <= x < TWO63 witness 0

  predicate Fits(x: int) {
    -TWO63 <= x < TWO63
  }

  lemma SomeWrapFits(x: int)
    ensures Fits(x - 0x1_0000_0000_0000_0000 * ((x + 0x8000_0000_0000_0000) / 0x1_0000_0000_0000_0000))
  {
  }

  /** How many times 2^64 has to be taken off x to fit it into a column; said without a division. */
  function Wraps(x: int): (k: int)
    ensures Fits(x - 0x1_0000_0000_0000_0000 * k)
  {
    SomeWrapFits(x);
    var k :| Fits(x - 0x1_0000_0000_0000_0000 * k);
    k
  }

  /** big.Int.Int64: the low 64 bits, read as two's complement. */
  function Int64(x: int): (r: I64)
    ensures -TWO63 <= x < TWO63 ==> r == x
  {
    x - 0x1_0000_0000_0000_0000 * Wraps(x)
  }

  lemma Int64Shift(x: int, k: int)
    ensures Int64(x + 0x1_0000_0000_0000_0000 * k) == Int64(x)
  {
    assert Wraps(x + 0x1_0000_0000_0000_0000 * k) == Wraps(x) + k;
  }

  /** Columns see their arguments only modulo 2^64. */
  lemma Int64Congruent(x: int, y: int, k: int)
    requires x == y + 0x1_0000_0000_0000_0000 * k
    ensures Int64(x) == Int64(y)
  {
    Int64Shift(y, k);
  }

  /** Truncating early or late gives the same column. */
  lemma Int64Add(x: int, y: int)
    ensures Int64(Int64(x) + y) == Int64(x + y)
  {
    Int64Congruent(Int64(x) + y, x + y, -Wraps(x));
  }

  lemma Int64Sub(x: int, y: int)
    ensures Int64(x - Int64(y)) == Int64(x - y)
  {
    Int64Congruent(x - Int64(y), x - y, Wraps(y));
  }

  lemma Int64Swap(v: int, a: int, b: int)
    ensures Int64(Int64(v + a) + b) == Int64(Int64(v + b) + a)
  {
    Int64Add(v + a, b);
    Int64Add(v + b, a);
  }
}
