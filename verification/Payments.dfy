// The payment service: a price split in place into net and fee, and requests for a refund.
module Payments {
  import opened Base
  import opened Ledger
  import opened Serial
  import opened Store

  class CheckoutSession {
    const merchant: string
    const amount: BigInt

    constructor (merchant: string, amount: BigInt)
      ensures this.merchant == merchant && this.amount == amount
    {
      this.merchant, this.amount := merchant, amount;
    }
  }

  /** 1.5 percent rounded up: the least whole number of centimes that covers it. */
  method CalculateFeeCeil(amount: BigInt) returns (fee: BigInt)
    ensures fresh(fee) && fee.v == Fee(amount.v)
    ensures 15 * amount.v <= 1000 * fee.v < 15 * amount.v + 1000
  {
    fee := new BigInt(0);
    var rate := new BigInt(15);
    var _ := fee.Mul(amount, rate);
    var round := new BigInt(999);
    var _ := fee.Add(fee, round);
    var scale := new BigInt(1000);
    var _ := fee.Div(fee, scale);
  }

  class Service {
    const db: Database

    constructor (db: Database)
      ensures this.db == db
    {
      this.db := db;
    }

    /**
     * session.amount is overwritten with the merchant's net, and the logged payment shares that
     * very number; the customer is debited before, the fee is computed before.
     */
    method Pay(session: CheckoutSession, user: string, id: Uuid, payRef: Uuid, feeId: Uuid, feeRef: Uuid, now: int)
        returns (err: Reply)
      requires db.begun.None? && -TWO63 <= session.amount.v < TWO63
      modifies db, session.amount
      ensures db.begun.None?
      ensures var op := DoPay(user, session.merchant, old(session.amount.v), id, payRef, feeId, feeRef, now);
              Performs(old(db.state), ApplyPay(db.directory, old(db.state), op), db.state, err)
      ensures err == Ok ==> session.amount.v == old(session.amount.v) - Fee(old(session.amount.v))
    {
      hide ApplyPay;
      db.BeginTx();
      err := PayTx(session, user, id, payRef, feeId, feeRef, now);
      db.EndTx(err);
    }

    method PayTx(session: CheckoutSession, user: string, id: Uuid, payRef: Uuid, feeId: Uuid, feeRef: Uuid, now: int)
        returns (err: Reply)
      requires db.begun == Some(db.state) && -TWO63 <= session.amount.v < TWO63
      modifies db`state, session.amount
      ensures var op := DoPay(user, session.merchant, old(session.amount.v), id, payRef, feeId, feeRef, now);
              PerformsInTx(ApplyPay(db.directory, old(db.state), op), db.state, err)
      ensures err == Ok ==> session.amount.v == old(session.amount.v) - Fee(old(session.amount.v))
    {
      hide Updated;
      hide Int64;
      hide Fee;
      hide CanInsert;
      hide Find;
      hide HasPending;
      var source := db.GetBy(db.directory.user, user);
      if source.None? {
        return BalanceNotFound;
      }
      if source.value.balance.Cmp(session.amount) < 0 {
        return InsufficientBalance;
      }
      var merchant := db.GetBy(db.directory.merchant, session.merchant);
      if merchant.None? {
        return BalanceNotFound;
      }
      var revenue := db.GetByBalanceID(REVENUE);
      if revenue.None? {
        return BalanceNotFound;
      }
      err := PayWrites(session, source.value, merchant.value, revenue.value, id, payRef, feeId, feeRef, now);
    }

    method PayWrites(session: CheckoutSession, source: Balance, merchant: Balance, revenue: Balance,
                     id: Uuid, payRef: Uuid, feeId: Uuid, feeRef: Uuid, now: int)
        returns (err: Reply)
      requires source.id in db.state.rows && merchant.id in db.state.rows && revenue.id in db.state.rows
      requires source.IsRow(db.state.rows[source.id]) && merchant.IsRow(db.state.rows[merchant.id])
      requires revenue.IsRow(db.state.rows[revenue.id])
      requires Apart(source, merchant) && Apart(source, revenue) && Apart(merchant, revenue)
      requires !source.Owns(session.amount) && !merchant.Owns(session.amount) && !revenue.Owns(session.amount)
      modifies db`state, source`version, merchant`version, revenue`version
      modifies source.balance, merchant.balance, revenue.balance, session.amount
      ensures var s, price := old(db.state), old(session.amount.v);
              var p := Txn(id, None, "payment_" + payRef, Int64(price - Fee(price)), source.id, merchant.id, Applied,
                           Payment, now);
              var f := Txn(feeId, Some(id), "revenue_" + feeRef, Int64(Fee(price)), source.id, revenue.id, Applied,
                           PlatformRevenue, now);
              var x, y, z := s.rows[source.id], s.rows[merchant.id], s.rows[revenue.id];
              && err == (if !CanInsert(s.log, p) || !CanInsert(s.log + [p], f) then UniqueViolation
                         else if source.id == merchant.id || source.id == revenue.id || merchant.id == revenue.id
                         then OptimisticLock
                         else Ok)
              && (err == Ok ==>
                    && session.amount.v == price - Fee(price)
                    && db.state == s.(log := s.log + [p] + [f],
                                      rows :=
                        s.rows[source.id := Updated(x, x.bal - price, x.credit, x.debit)]
                              [merchant.id := Updated(y, y.bal + (price - Fee(price)), y.credit, y.debit)]
                              [revenue.id := Updated(z, z.bal + Fee(price), z.credit, z.debit)]))
    {
      hide Updated;
      hide Int64;
      hide Fee;
      hide CanInsert;
      hide Find;
      hide HasPending;
      var platformFee, merchantNet := SplitPrice(session, source, merchant, revenue);
      err := RecordLegs(source, merchant, revenue, merchantNet, platformFee, id, payRef, feeId, feeRef, now);
      if err != Ok {
        return;
      }
      err := UpdateThree(source, merchant, revenue);
    }

    /** All the arithmetic of a payment, on numbers that stay shared. */
    method SplitPrice(session: CheckoutSession, source: Balance, merchant: Balance, revenue: Balance)
        returns (platformFee: BigInt, merchantNet: BigInt)
      requires Apart(source, merchant) && Apart(source, revenue) && Apart(merchant, revenue)
      requires !source.Owns(session.amount) && !merchant.Owns(session.amount) && !revenue.Owns(session.amount)
      modifies source.balance, merchant.balance, revenue.balance, session.amount
      ensures var price := old(session.amount.v);
              && merchantNet == session.amount && merchantNet.v == price - Fee(price)
              && fresh(platformFee) && platformFee.v == Fee(price)
              && source.balance.v == old(source.balance.v) - price
              && merchant.balance.v == old(merchant.balance.v) + merchantNet.v
              && revenue.balance.v == old(revenue.balance.v) + platformFee.v
    {
      var _ := source.balance.Sub(source.balance, session.amount);
      platformFee := CalculateFeeCeil(session.amount);
      merchantNet := session.amount.Sub(session.amount, platformFee);
      var _ := merchant.balance.Add(merchant.balance, merchantNet);
      var _ := revenue.balance.Add(revenue.balance, platformFee);
    }

    method RecordLegs(source: Balance, merchant: Balance, revenue: Balance, merchantNet: BigInt, platformFee: BigInt,
                      id: Uuid, payRef: Uuid, feeId: Uuid, feeRef: Uuid, now: int)
        returns (err: Reply)
      modifies db`state
      ensures var s := old(db.state);
              var p := Txn(id, None, "payment_" + payRef, Int64(merchantNet.v), source.id, merchant.id, Applied,
                           Payment, now);
              var f := Txn(feeId, Some(id), "revenue_" + feeRef, Int64(platformFee.v), source.id, revenue.id, Applied,
                           PlatformRevenue, now);
              && err == (if !CanInsert(s.log, p) || !CanInsert(s.log + [p], f) then UniqueViolation else Ok)
              && (err == Ok ==> db.state == s.(log := s.log + [p] + [f]))
    {
      hide Int64;
      hide CanInsert;
      var parent := new Transaction(id, None, "payment_" + payRef, merchantNet, source.id, merchant.id, Applied,
                                    Payment, now);
      var child := new Transaction(feeId, Some(id), "revenue_" + feeRef, platformFee, source.id, revenue.id, Applied,
                                   PlatformRevenue, now);
      err := db.Record(parent);
      if err != Ok {
        return;
      }
      err := db.Record(child);
    }

    /** Three versioned updates; two of one balance cannot both match its version. */
    method UpdateThree(a: Balance, b: Balance, c: Balance) returns (err: Reply)
      requires a.id in db.state.rows && b.id in db.state.rows && c.id in db.state.rows
      requires a.version == db.state.rows[a.id].version && b.version == db.state.rows[b.id].version
      requires c.version == db.state.rows[c.id].version && a != b && a != c && b != c
      modifies db`state, a`version, b`version, c`version
      ensures err == if a.id == b.id || a.id == c.id || b.id == c.id then OptimisticLock else Ok
      ensures err == Ok ==>
                var s := old(db.state);
                db.state == s.(rows :=
                  s.rows[a.id := Updated(s.rows[a.id], a.balance.v, a.inflightCredit.v, a.inflightDebit.v)]
                        [b.id := Updated(s.rows[b.id], b.balance.v, b.inflightCredit.v, b.inflightDebit.v)]
                        [c.id := Updated(s.rows[c.id], c.balance.v, c.inflightCredit.v, c.inflightDebit.v)])
    {
      hide Int64;
      hide CanInsert;
      hide Find;
      err := db.UpdateBalance(a);
      if err != Ok {
        return;
      }
      err := db.UpdateBalance(b);
      if err != Ok {
        return;
      }
      err := db.UpdateBalance(c);
    }

    method RequestRefund(ref: string, id: Uuid, now: int) returns (err: Reply)
      requires db.begun.None?
      modifies db
      ensures db.begun.None?
      ensures Performs(old(db.state), ApplyRequestRefund(old(db.state), DoRequestRefund(ref, id, now)), db.state, err)
    {
      hide HasPending;
      hide IsPayment;
      if !IsPayment(ref) {
        return NonRefundable;
      }
      db.BeginTx();
      err := RequestRefundTx(ref, id, now);
      db.EndTx(err);
    }

    method RequestRefundTx(ref: string, id: Uuid, now: int) returns (err: Reply)
      requires db.begun == Some(db.state) && IsPayment(ref)
      modifies db`state
      ensures PerformsInTx(ApplyRequestRefund(old(db.state), DoRequestRefund(ref, id, now)), db.state, err)
    {
      hide HasPending;
      hide IsPayment;
      var t := db.GetByRef(ref);
      if t.None? {
        return TransactionNotFound;
      }
      if t.value.status != Applied {
        return NonRefundable;
      }
      if now - t.value.created > REFUND_WINDOW {
        return NonRefundableExpired;
      }
      err := db.Create(id, Request(ref, Pending, now));
    }
  }
}
