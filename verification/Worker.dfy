// The refund worker: claim the oldest request, refund it, mark it, until none is left or one fails.
module Worker {
  import opened Base
  import opened Ledger
  import opened Serial
  import opened Store
  import opened Draining

  /** What the refund of the entry with this reference does inside its transaction. */
  predicate RefundsInTx(s: State, ref: string, op: Op, s': State, err: Reply)
    requires op.DoRefund?
  {
    match Find(s.log, ref)
    case None => err == TransactionNotFound
    case Some(t) =>
      if t.dst !in s.rows || t.src !in s.rows then err == BalanceNotFound
      else if s.rows[t.dst].bal < t.amount then err == MerchantInsufficientBalance
      else if t.dst == t.src then err == OptimisticLock
      else if !CanInsert(s.log, RefundTxn(op, t)) then err == UniqueViolation
      else
        var m, c := s.rows[t.dst], s.rows[t.src];
        && err == Ok
        && s' == s.(log := s.log + [RefundTxn(op, t)],
                    rows := s.rows[t.dst := Updated(m, m.bal - t.amount, m.credit, m.debit)]
                                  [t.src := Updated(c, c.bal + t.amount, c.credit, c.debit)])
  }

  /** The request is processing while its refund runs, and completed after it. */
  function Claimed(s: State, q: Uuid, status: RequestStatus): State
    requires q in s.reqs
  {
    s.(reqs := s.reqs[q := s.reqs[q].(status := status)])
  }

  /** A refund under a claim, then the completed mark, is the serial refund. */
  lemma ClaimedRefund(s: State, op: Op, s': State, err: Reply)
    requires op.DoRefund? && op.request in PendingOf(s.reqs)
    requires RefundsInTx(Claimed(s, op.request, Processing), s.reqs[op.request].ref, op, s', err)
    ensures err == ApplyRefund(s, op).reply && (ApplyRefund(s, op).Committed? <==> err == Ok)
    ensures err == Ok ==> op.request in s'.reqs && Claimed(s', op.request, Completed) == ApplyRefund(s, op).s
  {
    hide Updated;
    hide CanInsert;
    hide RefundTxn;
    var q := s.reqs[op.request];
    assert s.reqs[op.request := q.(status := Processing)][op.request := q.(status := Completed)]
        == s.reqs[op.request := q.(status := Completed)];
  }

  class RefundWorker {
    const db: Database

    constructor (db: Database)
      ensures this.db == db
    {
      this.db := db;
    }

    method RefundWrites(t: Transaction, merchant: Balance, customer: Balance, id: Uuid, now: int) returns (err: Reply)
      requires merchant.id == t.destination && customer.id == t.source
      requires merchant.id in db.state.rows && customer.id in db.state.rows
      requires merchant.IsRow(db.state.rows[merchant.id]) && customer.IsRow(db.state.rows[customer.id])
      requires Apart(merchant, customer) && !merchant.Owns(t.preciseAmount) && !customer.Owns(t.preciseAmount)
      modifies db`state, merchant`version, customer`version, merchant.balance, customer.balance
      ensures var s, amount := old(db.state), old(t.preciseAmount.v);
              var m, c := s.rows[t.destination], s.rows[t.source];
              var r := Txn(id, Some(t.id), t.reference + "_refund", Int64(amount), t.destination, t.source, Applied,
                           Kind.Refund, now);
              && err == (if t.destination == t.source then OptimisticLock
                         else if !CanInsert(s.log, r) then UniqueViolation else Ok)
              && (err == Ok ==>
                    db.state == s.(log := s.log + [r],
                                   rows := s.rows[t.destination := Updated(m, m.bal - amount, m.credit, m.debit)]
                                                 [t.source := Updated(c, c.bal + amount, c.credit, c.debit)]))
    {
      hide Int64;
      hide CanInsert;
      hide Find;
      hide HasPending;
      var _ := merchant.balance.Sub(merchant.balance, t.preciseAmount);
      var _ := customer.balance.Add(customer.balance, t.preciseAmount);
      err := db.UpdateBalance(merchant);
      if err != Ok {
        return;
      }
      err := db.UpdateBalance(customer);
      if err != Ok {
        return;
      }
      var r := new Transaction(id, Some(t.id), t.reference + "_refund", t.preciseAmount,
                               t.destination, t.source, Applied, Kind.Refund, now);
      err := db.Record(r);
    }

    method Refund(ref: string, q: Uuid, id: Uuid, now: int) returns (err: Reply)
      requires db.begun.Some?
      modifies db`state
      ensures RefundsInTx(old(db.state), ref, DoRefund(q, id, now), db.state, err)
    {
      hide Updated;
      hide CanInsert;
      hide HasPending;
      var transaction := db.GetByRef(ref);
      if transaction.None? {
        return TransactionNotFound;
      }
      var t := transaction.value;
      var merchant := db.GetByBalanceID(t.destination);
      if merchant.None? {
        return BalanceNotFound;
      }
      var customer := db.GetByBalanceID(t.source);
      if customer.None? {
        return BalanceNotFound;
      }
      if merchant.value.balance.Cmp(t.preciseAmount) < 0 {
        return MerchantInsufficientBalance;
      }
      err := RefundWrites(t, merchant.value, customer.value, id, now);
    }

    /** The closure of ProcessOne; request is what it captured. */
    method ProcessTx(id: Uuid, now: int) returns (err: Reply, request: Option<Uuid>)
      requires db.begun == Some(db.state)
      modifies db`state
      ensures request.Some? <==> PendingOf(old(db.state).reqs) != {}
      ensures request.None? ==> err == NoPendingRequests
      ensures request.Some? ==>
                && Oldest(old(db.state).reqs, request.value)
                && PerformsInTx(ApplyRefund(old(db.state), DoRefund(request.value, id, now)), db.state, err)
    {
      hide ApplyRefund;
      hide RefundsInTx;
      ghost var s := db.state;
      request := None;
      var claim := db.ClaimPending();
      if claim.None? {
        return NoPendingRequests, None;
      }
      var q := claim.value.0;
      request := Some(q);
      err := Refund(claim.value.1, q, id, now);
      ClaimedRefund(s, DoRefund(q, id, now), db.state, err);
      if err != Ok {
        return;
      }
      db.UpdateStatus(q, Completed);
    }

    method ProcessOne(id: Uuid, now: int) returns (err: Reply, request: Option<Uuid>)
      requires db.begun.None?
      modifies db
      ensures db.begun.None?
      ensures request.Some? <==> PendingOf(old(db.state).reqs) != {}
      ensures request.None? ==> err == NoPendingRequests && db.state == old(db.state)
      ensures request.Some? ==>
                && Oldest(old(db.state).reqs, request.value)
                && Processed(old(db.state), DoRefund(request.value, id, now), db.state, err)
    {
      hide ApplyRefund;
      db.BeginTx();
      err, request := ProcessTx(id, now);
      db.EndTx(err);
      if err == Ok || request.None? || err != MerchantInsufficientBalance {
        return;
      }
      db.UpdateStatus(request.value, Failed);
    }

    /**
     * The drain loop. It ends because every request it processes stops being pending; it folds the
     * serial refund over the pending requests, oldest first, up to the first that fails.
     */
    method ProcessAvailable(draw: nat -> (Uuid, int)) returns (err: Reply, ghost picks: seq<Uuid>)
      requires db.begun.None?
      modifies db
      ensures db.begun.None?
      ensures Drained(db.directory, old(db.state), picks, draw, db.state, err)
      ensures OldestFirst(old(db.state).reqs, picks)
      ensures db.state.reqs == if err == NoPendingRequests then Marked(old(db.state).reqs, picks, {})
                               else if err == MerchantInsufficientBalance then
                                 Marked(old(db.state).reqs, picks[..|picks| - 1], {picks[|picks| - 1]})
                               else Marked(old(db.state).reqs, picks[..|picks| - 1], {})
    {
      hide ApplyRefund;
      hide RunAll;
      hide AllCommit;
      ghost var s := db.state;
      var n := 0;
      picks := [];
      DrainStart(db.directory, s, draw);
      while true
        invariant db.begun.None? && n == |picks|
        invariant Folds(db.directory, s, picks, draw, db.state)
        decreases |PendingOf(db.state.reqs)|
      {
        ghost var before := db.state;
        var request;
        var d := draw(n);
        err, request := ProcessOne(d.0, d.1);
        if request.None? {
          break;
        }
        picks := picks + [request.value];
        assert picks[..n] == picks[..|picks| - 1];
        DrainStep(db.directory, s, picks[..n], request.value, draw, before, db.state, err);
        if err != Ok {
          break;
        }
        n := n + 1;
      }
    }
  }
}
