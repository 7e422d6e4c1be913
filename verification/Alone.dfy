// A client that nobody disturbs: its statements, one by one, end exactly as its serial operation,
// whether that commits or fails. So every serial run is a run of the concurrent system.
module Alone {
  import opened Base
  import opened Ledger
  import opened Serial
  import opened Protocol
  import opened Commits
  import opened Serializability

  /** Statement k succeeded, with the result it still has on the database of s. */
  predicate StillSo(d: Directory, s: Sys, op: Op, obs: seq<Obs>, k: nat)
    requires k < |obs|
  {
    var stmt, w := StmtAt(d, op, obs, k), WritesAt(d, op, obs, k);
    Succeeds(s.db, w, stmt) && obs[k] == Result(s, w, stmt)
  }

  /** Nobody has committed since the client began. */
  predicate Undisturbed(d: Directory, s: Sys, op: Op, obs: seq<Obs>) {
    forall k | 0 <= k < |obs| :: StillSo(d, s, op, obs, k)
  }

  /** The next statement fails. */
  predicate Stuck(d: Directory, s: Sys, op: Op, obs: seq<Obs>) {
    var stmt := StmtAt(d, op, obs, |obs|);
    Undisturbed(d, s, op, obs) && !stmt.Commit? && !Succeeds(s.db, WritesAt(d, op, obs, |obs|), stmt)
  }

  predicate Stops(stmt: Stmt) {
    stmt.Commit? || stmt.Abort?
  }

  lemma NotStoppedYet(d: Directory, s: Sys, op: Op, obs: seq<Obs>)
    requires Undisturbed(d, s, op, obs)
    ensures forall k | 0 <= k < |obs| :: !Stops(StmtAt(d, op, obs, k))
  {
    hide StmtAt;
    hide WritesAt;
    forall k | 0 <= k < |obs| ensures !Stops(StmtAt(d, op, obs, k)) {
      assert StillSo(d, s, op, obs, k);
    }
  }

  /** A client has executed no more statements than its program has. */
  lemma ShortEnough(d: Directory, s: Sys, op: Op, obs: seq<Obs>, n: nat)
    requires Undisturbed(d, s, op, obs) && (n <= |obs| ==> Stops(StmtAt(d, op, obs, n)))
    ensures |obs| <= n
  {
    hide StmtAt;
    hide WritesAt;
    hide Stops;
    NotStoppedYet(d, s, op, obs);
  }

  /** What has not been written yet is empty. */
  lemma {:induction false} UntouchedYet(d: Directory, op: Op, obs: seq<Obs>, k: nat)
    requires k <= |obs|
    ensures (forall j | 0 <= j < k :: !StmtAt(d, op, obs, j).UpdateRow?) ==> WritesAt(d, op, obs, k).rows == map[]
    ensures (forall j | 0 <= j < k :: !StmtAt(d, op, obs, j).InsertTxn?) ==> WritesAt(d, op, obs, k).log == []
    ensures (forall j | 0 <= j < k :: !StmtAt(d, op, obs, j).MarkEvent?) ==> WritesAt(d, op, obs, k).events == {}
  {
    hide StmtAt;
    if k > 0 {
      UntouchedYet(d, op, obs, k - 1);
    }
  }

  lemma NothingLogged(t: Txn)
    ensures CanInsert([], t)
  {
  }

  /** The last statements of a top-up succeed once the entry is logged. */
  lemma TopupGoesOn(d: Directory, s: Sys, op: Op, obs: seq<Obs>)
    requires op.DoTopup? && Undisturbed(d, s, op, obs) && |obs| == 3 && StmtAt(d, op, obs, 3).UpdateRow?
    ensures Succeeds(s.db, WritesAt(d, op, obs, 3), StmtAt(d, op, obs, 3))
  {
    hide Updated;
    hide TopupTxn;
    hide CanInsert;
    hide WritesAt;
    assert StillSo(d, s, op, obs, 0) && StillSo(d, s, op, obs, 1) && StillSo(d, s, op, obs, 2);
    UntouchedYet(d, op, obs, 3);
    var r := RowOf(obs[0]);
  }

  lemma TopupFails(d: Directory, s: Sys, op: Op, obs: seq<Obs>)
    requires op.DoTopup? && Stuck(d, s, op, obs)
    ensures ApplyTopup(d, s.db, op) == RolledBack(Failure(StmtAt(d, op, obs, |obs|)))
  {
    hide Updated;
    hide TopupTxn;
    hide CanInsert;
    hide WritesAt;
    ShortEnough(d, s, op, obs, 4);
    UntouchedYet(d, op, obs, |obs|);
    if |obs| > 0 {
      assert StillSo(d, s, op, obs, 0);
      if |obs| > 1 {
        assert StillSo(d, s, op, obs, 1);
        NothingLogged(TopupTxn(op, d.identity[op.identity]));
        if |obs| == 3 {
          assert StillSo(d, s, op, obs, 2);
          TopupGoesOn(d, s, op, obs);
        }
      }
    }
  }

  lemma WithdrawGoesOn(d: Directory, s: Sys, op: Op, obs: seq<Obs>)
    requires op.DoWithdraw? && Undisturbed(d, s, op, obs) && |obs| == 3 && StmtAt(d, op, obs, 3).UpdateRow?
    ensures Succeeds(s.db, WritesAt(d, op, obs, 3), StmtAt(d, op, obs, 3))
  {
    hide Updated;
    hide WithdrawTxn;
    hide CanInsert;
    hide WritesAt;
    assert StillSo(d, s, op, obs, 0) && StillSo(d, s, op, obs, 1) && StillSo(d, s, op, obs, 2);
    UntouchedYet(d, op, obs, 3);
    var r := RowOf(obs[0]);
  }

  lemma WithdrawFails(d: Directory, s: Sys, op: Op, obs: seq<Obs>)
    requires op.DoWithdraw? && Stuck(d, s, op, obs)
    ensures ApplyWithdraw(d, s.db, op) == RolledBack(Failure(StmtAt(d, op, obs, |obs|)))
  {
    hide Updated;
    hide WithdrawTxn;
    hide CanInsert;
    hide WritesAt;
    ShortEnough(d, s, op, obs, 4);
    UntouchedYet(d, op, obs, |obs|);
    if |obs| > 0 {
      assert StillSo(d, s, op, obs, 0);
      if |obs| > 1 {
        assert StillSo(d, s, op, obs, 1);
        NothingLogged(WithdrawTxn(op, d.identity[op.identity]));
        if |obs| == 3 {
          assert StillSo(d, s, op, obs, 2);
          WithdrawGoesOn(d, s, op, obs);
        }
      }
    }
  }

  lemma WebhookGoesOn(d: Directory, s: Sys, op: Op, obs: seq<Obs>)
    requires IsWebhook(op) && Undisturbed(d, s, op, obs) && |obs| == 4 && StmtAt(d, op, obs, 4).UpdateRow?
    ensures Succeeds(s.db, WritesAt(d, op, obs, 4), StmtAt(d, op, obs, 4))
  {
    hide SettledRow;
    hide SettleTxn;
    hide CanInsert;
    hide ParentRef;
    hide WritesAt;
    assert StillSo(d, s, op, obs, 0) && StillSo(d, s, op, obs, 2);
    UntouchedYet(d, op, obs, 4);
  }

  /** The delivery has passed its checks. */
  predicate Checked(s: Sys, op: Op, obs: seq<Obs>)
    requires IsWebhook(op)
  {
    && |obs| >= 2
    && var p := TxnOf(obs[0]);
       && Find(s.db.log, ParentRef(op)) == Some(p) && p.status == Inflight
       && (op.report == "succeeded" || op.report == "failed") && (op.source, op.event) !in s.db.events
  }

  lemma WebhookReadFails(d: Directory, s: Sys, op: Op, obs: seq<Obs>)
    requires IsWebhook(op) && Stuck(d, s, op, obs) && |obs| <= 1
    ensures ApplyWebhook(s.db, op) == RolledBack(Failure(StmtAt(d, op, obs, |obs|)))
  {
    hide SettledRow;
    hide SettleTxn;
    hide CanInsert;
    hide ParentRef;
    hide Settle;
    hide WritesAt;
    UntouchedYet(d, op, obs, |obs|);
    assert |obs| > 0 ==> StillSo(d, s, op, obs, 0);
  }

  lemma WebhookChecks(d: Directory, s: Sys, op: Op, obs: seq<Obs>)
    requires IsWebhook(op) && Undisturbed(d, s, op, obs) && |obs| >= 2
    ensures Checked(s, op, obs)
    ensures StmtAt(d, op, obs, 2) == ReadBalance(SettledBalance(op, TxnOf(obs[0])))
    ensures |obs| >= 3 ==>
              && SettledBalance(op, TxnOf(obs[0])) in s.db.rows
              && StmtAt(d, op, obs, 3) == InsertTxn(SettleTxn(op, TxnOf(obs[0]))) && WritesAt(d, op, obs, 3).log == []
  {
    hide SettledRow;
    hide SettleTxn;
    hide CanInsert;
    hide ParentRef;
    hide WritesAt;
    assert StillSo(d, s, op, obs, 0) && StillSo(d, s, op, obs, 1);
    if |obs| >= 3 {
      assert StillSo(d, s, op, obs, 2);
      UntouchedYet(d, op, obs, 3);
    }
  }

  lemma WebhookFails(d: Directory, s: Sys, op: Op, obs: seq<Obs>)
    requires IsWebhook(op) && Stuck(d, s, op, obs)
    ensures ApplyWebhook(s.db, op) == RolledBack(Failure(StmtAt(d, op, obs, |obs|)))
  {
    hide StmtAt;
    hide WritesAt;
    hide Undisturbed;
    hide SettleTxn;
    hide CanInsert;
    hide ParentRef;
    hide Settle;
    if |obs| <= 1 {
      WebhookReadFails(d, s, op, obs);
    } else {
      StuckIsUndisturbed(d, s, op, obs);
      WebhookChecks(d, s, op, obs);
      NothingLogged(SettleTxn(op, TxnOf(obs[0])));
      if |obs| >= 4 {
        WebhookEnds(d, s, op, obs);
      }
    }
  }

  /** Past its checks and its entry a delivery has nothing left to fail. */
  lemma WebhookEnds(d: Directory, s: Sys, op: Op, obs: seq<Obs>)
    requires IsWebhook(op) && Undisturbed(d, s, op, obs) && |obs| >= 4
    ensures var stmt := StmtAt(d, op, obs, |obs|);
            stmt.Commit? || Succeeds(s.db, WritesAt(d, op, obs, |obs|), stmt)
  {
    hide SettledRow;
    hide SettleTxn;
    hide CanInsert;
    hide ParentRef;
    hide WritesAt;
    ShortEnough(d, s, op, obs, 5);
    WebhookChecks(d, s, op, obs);
    if |obs| == 4 {
      WebhookGoesOn(d, s, op, obs);
    }
  }

  lemma RequestRefundFails(d: Directory, s: Sys, op: Op, obs: seq<Obs>)
    requires op.DoRequestRefund? && Stuck(d, s, op, obs)
    ensures ApplyRequestRefund(s.db, op) == RolledBack(Failure(StmtAt(d, op, obs, |obs|)))
  {
    hide IsPayment;
    hide HasPending;
    hide WritesAt;
    ShortEnough(d, s, op, obs, 2);
    if |obs| > 0 {
      assert StillSo(d, s, op, obs, 0);
    }
  }

  /** Marking a request failed that is not there is no error: nothing happens. */
  lemma MarkFailedFails(d: Directory, s: Sys, op: Op, obs: seq<Obs>)
    requires op.DoMarkFailed? && Stuck(d, s, op, obs)
    ensures ApplyMarkFailed(s.db, op) == Committed(s.db, Failure(StmtAt(d, op, obs, |obs|)))
  {
    hide WritesAt;
    ShortEnough(d, s, op, obs, 1);
  }

  lemma TransferGoesOn(d: Directory, s: Sys, op: Op, obs: seq<Obs>)
    requires op.DoTransfer? && Undisturbed(d, s, op, obs) && 3 <= |obs| <= 4 && StmtAt(d, op, obs, |obs|).UpdateRow?
    ensures Succeeds(s.db, WritesAt(d, op, obs, |obs|), StmtAt(d, op, obs, |obs|))
  {
    hide Updated;
    hide TransferTxn;
    hide CanInsert;
    assert StillSo(d, s, op, obs, 0) && StillSo(d, s, op, obs, 1);
    UntouchedYet(d, op, obs, 3);
    var x, y := RowOf(obs[0]), RowOf(obs[1]);
  }

  lemma TransferFails(d: Directory, s: Sys, op: Op, obs: seq<Obs>)
    requires op.DoTransfer? && Stuck(d, s, op, obs)
    ensures ApplyTransfer(d, s.db, op) == RolledBack(Failure(StmtAt(d, op, obs, |obs|)))
  {
    hide Updated;
    hide TransferTxn;
    hide CanInsert;
    hide WritesAt;
    ShortEnough(d, s, op, obs, 5);
    UntouchedYet(d, op, obs, |obs|);
    if |obs| > 0 {
      assert StillSo(d, s, op, obs, 0);
      if |obs| > 1 {
        assert StillSo(d, s, op, obs, 1);
        NothingLogged(TransferTxn(op, d.identity[op.identity], d.email[op.email]));
        if |obs| > 2 {
          assert StillSo(d, s, op, obs, 2);
          if |obs| < 5 {
            TransferGoesOn(d, s, op, obs);
          }
        }
      }
    }
  }

  // Payments: two entries, then three updates, of which one fails when two balances are the same.

  predicate PayReads(d: Directory, s: Sys, op: Op, obs: seq<Obs>)
    requires op.DoPay?
  {
    && |obs| >= 3 && Known(d.user, op.user, s.db.rows) && Known(d.merchant, op.merchant, s.db.rows)
    && REVENUE in s.db.rows && op.price <= s.db.rows[d.user[op.user]].bal
    && RowOf(obs[0]) == s.db.rows[d.user[op.user]] && RowOf(obs[1]) == s.db.rows[d.merchant[op.merchant]]
    && RowOf(obs[2]) == s.db.rows[REVENUE]
  }

  lemma PayHasRead(d: Directory, s: Sys, op: Op, obs: seq<Obs>)
    requires op.DoPay? && Undisturbed(d, s, op, obs) && |obs| >= 3
    ensures PayReads(d, s, op, obs)
  {
    hide Updated;
    hide PayTxn;
    hide FeeTxn;
    hide Fee;
    hide CanInsert;
    hide WritesAt;
    assert StillSo(d, s, op, obs, 0) && StillSo(d, s, op, obs, 1) && StillSo(d, s, op, obs, 2);
  }

  /** The statements from the third on, and what is written before each. */
  predicate PayTail(d: Directory, op: Op, obs: seq<Obs>)
    requires op.DoPay? && |obs| >= 3 && op.user in d.user && op.merchant in d.merchant
  {
    var a, m := d.user[op.user], d.merchant[op.merchant];
    var x, y, z := RowOf(obs[0]), RowOf(obs[1]), RowOf(obs[2]);
    && (forall j | 0 <= j < 3 :: StmtAt(d, op, obs, j).ReadBalance?)
    && StmtAt(d, op, obs, 3) == InsertTxn(PayTxn(op, a, m))
    && (|obs| >= 4 ==> StmtAt(d, op, obs, 4) == InsertTxn(FeeTxn(op, a)))
    && (|obs| >= 5 ==> StmtAt(d, op, obs, 5) == UpdateRow(a, Change(x, x.bal - op.price, x.credit, x.debit)))
    && (|obs| >= 6 ==>
          StmtAt(d, op, obs, 6) == UpdateRow(m, Change(y, y.bal + (op.price - Fee(op.price)), y.credit, y.debit)))
    && (|obs| >= 7 ==>
          StmtAt(d, op, obs, 7) == UpdateRow(REVENUE, Change(z, z.bal + Fee(op.price), z.credit, z.debit)))
    && (|obs| >= 8 ==> StmtAt(d, op, obs, 8) == Commit(Ok))
  }

  lemma PayGoesOn(d: Directory, s: Sys, op: Op, obs: seq<Obs>)
    requires op.DoPay? && PayReads(d, s, op, obs)
    ensures PayTail(d, op, obs)
  {
    hide Updated;
    hide PayTxn;
    hide FeeTxn;
    hide Fee;
  }

  lemma PayLogged(d: Directory, s: Sys, op: Op, obs: seq<Obs>)
    requires op.DoPay? && PayReads(d, s, op, obs) && PayTail(d, op, obs)
    ensures WritesAt(d, op, obs, 3) == NO_WRITES
    ensures |obs| >= 4 ==>
              WritesAt(d, op, obs, 4) == NO_WRITES.(log := [PayTxn(op, d.user[op.user], d.merchant[op.merchant])])
    ensures |obs| >= 5 ==> WritesAt(d, op, obs, 5).rows == map[]
  {
    hide StmtAt;
    hide Updated;
    hide PayTxn;
    hide FeeTxn;
    hide Fee;
    hide CanInsert;
    assert WritesAt(d, op, obs, 1) == NO_WRITES;
    assert WritesAt(d, op, obs, 2) == NO_WRITES;
  }

  lemma PayLogFails(d: Directory, s: Sys, op: Op, obs: seq<Obs>)
    requires op.DoPay? && Stuck(d, s, op, obs) && 3 <= |obs| <= 4
    requires PayReads(d, s, op, obs) && PayTail(d, op, obs)
    ensures var a, m := d.user[op.user], d.merchant[op.merchant];
            var p, f := PayTxn(op, a, m), FeeTxn(op, a);
            !CanInsert(s.db.log, p) || !CanInsert(s.db.log + [p], f)
  {
    hide StmtAt;
    hide WritesAt;
    hide Updated;
    hide PayTxn;
    hide FeeTxn;
    hide Fee;
    PayLogged(d, s, op, obs);
  }

  lemma PayLogs(d: Directory, s: Sys, op: Op, obs: seq<Obs>)
    requires op.DoPay? && Undisturbed(d, s, op, obs) && |obs| >= 5
    requires PayReads(d, s, op, obs) && PayTail(d, op, obs)
    ensures var a, m := d.user[op.user], d.merchant[op.merchant];
            var p, f := PayTxn(op, a, m), FeeTxn(op, a);
            CanInsert(s.db.log, p) && CanInsert(s.db.log + [p], f)
  {
    hide StmtAt;
    hide WritesAt;
    hide Updated;
    hide PayTxn;
    hide FeeTxn;
    hide Fee;
    PayLogged(d, s, op, obs);
    assert StillSo(d, s, op, obs, 3) && StillSo(d, s, op, obs, 4);
  }

  lemma PayUpdateFails(d: Directory, s: Sys, op: Op, obs: seq<Obs>)
    requires op.DoPay? && Stuck(d, s, op, obs) && 5 <= |obs| <= 7
    requires PayReads(d, s, op, obs) && PayTail(d, op, obs)
    ensures var a, m := d.user[op.user], d.merchant[op.merchant]; a == m || a == REVENUE || m == REVENUE
  {
    hide StmtAt;
    hide Updated;
    hide PayTxn;
    hide FeeTxn;
    hide Fee;
    hide CanInsert;
    PayLogged(d, s, op, obs);
    var x, y, z := RowOf(obs[0]), RowOf(obs[1]), RowOf(obs[2]);
    if |obs| >= 6 { assert WritesAt(d, op, obs, 6).rows.Keys == {d.user[op.user]}; }
    if |obs| >= 7 { assert WritesAt(d, op, obs, 7).rows.Keys == {d.user[op.user], d.merchant[op.merchant]}; }
  }

  lemma PayReadFails(d: Directory, s: Sys, op: Op, obs: seq<Obs>)
    requires op.DoPay? && Stuck(d, s, op, obs) && |obs| <= 2
    ensures ApplyPay(d, s.db, op) == RolledBack(Failure(StmtAt(d, op, obs, |obs|)))
  {
    hide Updated;
    hide PayTxn;
    hide FeeTxn;
    hide Fee;
    hide CanInsert;
    hide WritesAt;
    assert |obs| > 0 ==> StillSo(d, s, op, obs, 0);
    assert |obs| > 1 ==> StillSo(d, s, op, obs, 1);
  }

  lemma PayFails(d: Directory, s: Sys, op: Op, obs: seq<Obs>)
    requires op.DoPay? && Stuck(d, s, op, obs)
    ensures ApplyPay(d, s.db, op) == RolledBack(Failure(StmtAt(d, op, obs, |obs|)))
  {
    hide StmtAt;
    hide Stuck;
    hide Undisturbed;
    hide Updated;
    hide PayTxn;
    hide FeeTxn;
    hide Fee;
    hide CanInsert;
    if |obs| <= 2 {
      PayReadFails(d, s, op, obs);
    } else {
      StuckIsUndisturbed(d, s, op, obs);
      PayHasRead(d, s, op, obs);
      PayGoesOn(d, s, op, obs);
      ShortEnough(d, s, op, obs, 8);
      if |obs| <= 4 {
        PayLogFails(d, s, op, obs);
      } else {
        PayLogs(d, s, op, obs);
        PayUpdateFails(d, s, op, obs);
      }
    }
  }

  lemma StuckIsUndisturbed(d: Directory, s: Sys, op: Op, obs: seq<Obs>)
    requires Stuck(d, s, op, obs)
    ensures Undisturbed(d, s, op, obs) && !StmtAt(d, op, obs, |obs|).Commit?
  {
  }

  // Refunds: the claim, three reads, two updates, of which the second fails when both are the same.

  predicate RefundReads(s: Sys, op: Op, obs: seq<Obs>)
    requires op.DoRefund?
  {
    && |obs| >= 4 && op.request in s.db.reqs && s.db.reqs[op.request].status == Pending
    && var t := TxnOf(obs[1]);
       && Find(s.db.log, s.db.reqs[op.request].ref) == Some(t) && t.dst in s.db.rows && t.src in s.db.rows
       && RowOf(obs[2]) == s.db.rows[t.dst] && RowOf(obs[3]) == s.db.rows[t.src]
  }

  lemma RefundHasRead(d: Directory, s: Sys, op: Op, obs: seq<Obs>)
    requires op.DoRefund? && Undisturbed(d, s, op, obs) && |obs| >= 4
    ensures RefundReads(s, op, obs)
  {
    hide Updated;
    hide RefundTxn;
    hide CanInsert;
    hide WritesAt;
    assert StillSo(d, s, op, obs, 0) && StillSo(d, s, op, obs, 1);
    assert StillSo(d, s, op, obs, 2) && StillSo(d, s, op, obs, 3);
  }

  lemma RefundReadFails(d: Directory, s: Sys, op: Op, obs: seq<Obs>)
    requires op.DoRefund? && Stuck(d, s, op, obs) && |obs| <= 3
    ensures ApplyRefund(s.db, op) == RolledBack(Failure(StmtAt(d, op, obs, |obs|)))
  {
    hide Updated;
    hide RefundTxn;
    hide CanInsert;
    hide WritesAt;
    assert |obs| > 0 ==> StillSo(d, s, op, obs, 0);
    assert |obs| > 1 ==> StillSo(d, s, op, obs, 1);
    assert |obs| > 2 ==> StillSo(d, s, op, obs, 2);
  }

  predicate RefundTail(d: Directory, op: Op, obs: seq<Obs>)
    requires op.DoRefund? && |obs| >= 4
  {
    var t, m, c := TxnOf(obs[1]), RowOf(obs[2]), RowOf(obs[3]);
    && StmtAt(d, op, obs, 0).ClaimRequest? && StmtAt(d, op, obs, 1).ReadTxn?
    && StmtAt(d, op, obs, 2).ReadBalance? && StmtAt(d, op, obs, 3).ReadBalance?
    && if m.bal < t.amount then StmtAt(d, op, obs, 4) == Abort(MerchantInsufficientBalance)
       else
         && StmtAt(d, op, obs, 4) == UpdateRow(t.dst, Change(m, m.bal - t.amount, m.credit, m.debit))
         && (|obs| >= 5 ==>
               StmtAt(d, op, obs, 5) == UpdateRow(t.src, Change(c, c.bal + t.amount, c.credit, c.debit)))
         && (|obs| >= 6 ==> StmtAt(d, op, obs, 6) == InsertTxn(RefundTxn(op, t)))
         && (|obs| >= 7 ==> StmtAt(d, op, obs, 7) == CompleteRequest(op.request))
         && (|obs| >= 8 ==> StmtAt(d, op, obs, 8) == Commit(Ok))
  }

  lemma RefundGoesOn(d: Directory, op: Op, obs: seq<Obs>)
    requires op.DoRefund? && |obs| >= 4
    ensures RefundTail(d, op, obs)
  {
    hide Updated;
    hide RefundTxn;
  }

  /** With funds the first update succeeds, and the second if it is of another balance. */
  lemma RefundUpdates(d: Directory, s: Sys, op: Op, obs: seq<Obs>)
    requires op.DoRefund? && RefundReads(s, op, obs) && RefundTail(d, op, obs)
    requires TxnOf(obs[1]).amount <= RowOf(obs[2]).bal
    ensures var t := TxnOf(obs[1]);
            && (|obs| == 4 ==> Succeeds(s.db, WritesAt(d, op, obs, 4), StmtAt(d, op, obs, 4)))
            && (|obs| >= 5 ==> (Succeeds(s.db, WritesAt(d, op, obs, 5), StmtAt(d, op, obs, 5)) <==> t.dst != t.src))
            && (|obs| >= 6 ==> WritesAt(d, op, obs, 6).log == [])
  {
    hide StmtAt;
    hide Updated;
    hide RefundTxn;
    hide CanInsert;
    hide HasPending;
    var t, m, c := TxnOf(obs[1]), RowOf(obs[2]), RowOf(obs[3]);
    UntouchedYet(d, op, obs, 4);
    assert |obs| >= 5 ==> WritesAt(d, op, obs, 5).rows.Keys == {t.dst} && WritesAt(d, op, obs, 5).log == [];
  }

  lemma RefundFailsLate(d: Directory, s: Sys, op: Op, obs: seq<Obs>)
    requires op.DoRefund? && Stuck(d, s, op, obs) && |obs| >= 4
    ensures ApplyRefund(s.db, op) == RolledBack(Failure(StmtAt(d, op, obs, |obs|)))
  {
    hide StmtAt;
    hide WritesAt;
    hide Updated;
    hide RefundTxn;
    hide CanInsert;
    hide Undisturbed;
    StuckIsUndisturbed(d, s, op, obs);
    RefundHasRead(d, s, op, obs);
    RefundGoesOn(d, op, obs);
    NotStoppedYet(d, s, op, obs);
    var t := TxnOf(obs[1]);
    NothingLogged(RefundTxn(op, t));
    if t.amount <= RowOf(obs[2]).bal {
      ShortEnough(d, s, op, obs, 8);
      RefundUpdates(d, s, op, obs);
      if |obs| >= 6 {
        Succeeded(d, s, op, obs, 5);
      }
    }
  }

  lemma Succeeded(d: Directory, s: Sys, op: Op, obs: seq<Obs>, k: nat)
    requires Undisturbed(d, s, op, obs) && k < |obs|
    ensures Succeeds(s.db, WritesAt(d, op, obs, k), StmtAt(d, op, obs, k))
  {
    hide StmtAt;
    hide WritesAt;
    assert StillSo(d, s, op, obs, k);
  }

  lemma RefundFails(d: Directory, s: Sys, op: Op, obs: seq<Obs>)
    requires op.DoRefund? && Stuck(d, s, op, obs)
    ensures ApplyRefund(s.db, op) == RolledBack(Failure(StmtAt(d, op, obs, |obs|)))
  {
    hide StmtAt;
    hide Stuck;
    hide ApplyRefund;
    if |obs| <= 3 {
      RefundReadFails(d, s, op, obs);
    } else {
      RefundFailsLate(d, s, op, obs);
    }
  }

  /** A statement that fails undisturbed fails the serial operation, with the same error. */
  lemma FailureIsSerial(d: Directory, s: Sys, op: Op, obs: seq<Obs>)
    requires Stuck(d, s, op, obs)
    ensures After(s.db, Apply(d, s.db, op)) == s.db
    ensures Apply(d, s.db, op).reply == Failure(StmtAt(d, op, obs, |obs|))
  {
    hide StmtAt;
    hide WritesAt;
    hide Stuck;
    hide ApplyTopup;
    hide ApplyWithdraw;
    hide ApplyWebhook;
    hide ApplyTransfer;
    hide ApplyPay;
    hide ApplyRequestRefund;
    hide ApplyRefund;
    hide ApplyMarkFailed;
    match op
    case DoTopup(_, _, _, _, _) => TopupFails(d, s, op, obs);
    case DoTopupWebhook(_, _, _, _, _, _, _) => WebhookFails(d, s, op, obs);
    case DoWithdraw(_, _, _, _, _) => WithdrawFails(d, s, op, obs);
    case DoPayoutWebhook(_, _, _, _, _, _, _) => WebhookFails(d, s, op, obs);
    case DoTransfer(_, _, _, _, _, _) => TransferFails(d, s, op, obs);
    case DoPay(_, _, _, _, _, _, _, _) => PayFails(d, s, op, obs);
    case DoRequestRefund(_, _, _) => RequestRefundFails(d, s, op, obs);
    case DoRefund(_, _, _) => RefundFails(d, s, op, obs);
    case DoMarkFailed(_) => MarkFailedFails(d, s, op, obs);
  }
}
