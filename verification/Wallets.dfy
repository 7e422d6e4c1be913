// The wallet service: the code's own steps on mutable balances, proved against the serial operations.
module Wallets {
  import opened Base
  import opened Ledger
  import opened Serial
  import opened Store
  import opened Amounts

  /** How a call with a textual amount ends: a text the parser refuses is refused before anything else. */
  predicate PerformsAmount(parse: Parser, s: State, amount: string, o: Outcome, s': State, err: Reply) {
    if parse(amount).None? then s' == s && err == InvalidAmount else Performs(s, o, s', err)
  }

  function ParsedAmount(parse: Parser, amount: string): int {
    if parse(amount).Some? then Centimes(parse(amount).value) else 0
  }

  class Service {
    const db: Database
    const parse: Parser

    constructor (db: Database, parse: Parser)
      ensures this.db == db && this.parse == parse
    {
      this.db, this.parse := db, parse;
    }

    method Topup(identity: string, amountText: string, gatewayRef: string, id: Uuid, now: int) returns (err: Reply)
      requires db.begun.None?
      modifies db
      ensures db.begun.None?
      ensures var op := DoTopup(identity, ParsedAmount(parse, amountText), gatewayRef, id, now);
              PerformsAmount(parse, old(db.state), amountText,
                             ApplyTopup(db.directory, old(db.state), op), db.state, err)
    {
      hide Centimes;
      var amount := AmountInCentimes(parse, amountText);
      if amount.None? {
        return InvalidAmount;
      }
      if MAX_TOPUP_AMOUNT < amount.value.v {
        return MaxAmountExceeded;
      }
      db.BeginTx();
      err := TopupTx(identity, amount.value, gatewayRef, id, now);
      db.EndTx(err);
    }

    method TopupTx(identity: string, amount: BigInt, gatewayRef: string, id: Uuid, now: int) returns (err: Reply)
      requires db.begun == Some(db.state) && amount.v <= MAX_TOPUP_AMOUNT
      modifies db`state
      ensures PerformsInTx(old(ApplyTopup(db.directory, db.state, DoTopup(identity, amount.v, gatewayRef, id, now))),
                           db.state, err)
    {
      hide Updated;
      hide Int64;
      hide CanInsert;
      hide Find;
      hide HasPending;
      var destination := db.GetBy(db.directory.identity, identity);
      if destination.None? {
        return BalanceNotFound;
      }
      var source := db.GetByBalanceID(WORLD);
      if source.None? {
        return BalanceNotFound;
      }
      var to := destination.value;
      var t := new Transaction(id, None, "topup_" + gatewayRef, amount, source.value.id, to.id, Inflight,
                               Kind.Topup, now);
      err := db.Record(t);
      if err != Ok {
        return;
      }
      var _ := to.inflightCredit.Add(to.inflightCredit, amount);
      err := db.UpdateBalance(to);
    }

    method TopupWebhook(source: string, event: string, gatewayRef: string, report: string,
                        id: Uuid, childRef: Uuid, now: int) returns (err: Reply)
      requires db.begun.None?
      modifies db
      ensures db.begun.None?
      ensures var op := DoTopupWebhook(source, event, gatewayRef, report, id, childRef, now);
              Performs(old(db.state), ApplyWebhook(old(db.state), op), db.state, err)
    {
      hide Settle;
      hide CanInsert;
      var parent := db.GetByRef("topup_" + gatewayRef);
      if parent.None? {
        return TransactionNotFound;
      }
      match parent.value.status {
        case Applied => return AlreadyCompleted;
        case Rejected | Void => return AlreadyFailed;
        case Inflight =>
      }
      var newStatus;
      if report == "succeeded" {
        newStatus := Applied;
      } else if report == "failed" {
        newStatus := Void;
      } else {
        return UnknownWebhookStatus;
      }
      db.BeginTx();
      err := TopupWebhookTx(parent.value, newStatus, source, event, gatewayRef, report, id, childRef, now);
      db.EndTx(err);
      if err == Ok && newStatus == Void {
        err := GatewayFailure;
      }
    }

    method TopupWebhookTx(parent: Transaction, newStatus: Status, source: string, event: string,
                          gatewayRef: string, report: string, id: Uuid, childRef: Uuid, now: int) returns (err: Reply)
      requires db.begun == Some(db.state) && newStatus == NewStatus(report)
      requires parent.preciseAmount.v == Int64(parent.preciseAmount.v)
      modifies db`state
      ensures var op := DoTopupWebhook(source, event, gatewayRef, report, id, childRef, now);
              SettlesInTx(old(db.state), op, parent.Entry(old(parent.preciseAmount.v)), db.state, err)
    {
      hide Updated;
      hide Int64;
      hide CanInsert;
      hide Find;
      hide HasPending;
      var isNew := db.MarkProcessed(source, event);
      if !isNew {
        return WebhookAlreadyProcessed;
      }
      var destination := db.GetByBalanceID(parent.destination);
      if destination.None? {
        return BalanceNotFound;
      }
      var to := destination.value;
      var child := new Transaction(id, Some(parent.id), "topup_" + childRef, parent.preciseAmount,
                                   parent.source, parent.destination, newStatus, parent.kind, now);
      err := db.Record(child);
      if err != Ok {
        return;
      }
      var _ := to.inflightCredit.Sub(to.inflightCredit, parent.preciseAmount);
      if newStatus == Applied {
        var _ := to.balance.Add(to.balance, parent.preciseAmount);
      }
      err := db.UpdateBalance(to);
    }

    method Withdraw(identity: string, amountText: string, gatewayRef: string, id: Uuid, now: int) returns (err: Reply)
      requires db.begun.None?
      modifies db
      ensures db.begun.None?
      ensures var op := DoWithdraw(identity, ParsedAmount(parse, amountText), gatewayRef, id, now);
              PerformsAmount(parse, old(db.state), amountText,
                             ApplyWithdraw(db.directory, old(db.state), op), db.state, err)
    {
      hide Centimes;
      var amount := AmountInCentimes(parse, amountText);
      if amount.None? {
        return InvalidAmount;
      }
      if MAX_WITHDRAWAL_AMOUNT < amount.value.v {
        return MaxAmountExceeded;
      }
      db.BeginTx();
      err := WithdrawTx(identity, amount.value, gatewayRef, id, now);
      db.EndTx(err);
    }

    method WithdrawTx(identity: string, amount: BigInt, gatewayRef: string, id: Uuid, now: int) returns (err: Reply)
      requires db.begun == Some(db.state) && amount.v <= MAX_WITHDRAWAL_AMOUNT
      modifies db`state
      ensures PerformsInTx(
                old(ApplyWithdraw(db.directory, db.state, DoWithdraw(identity, amount.v, gatewayRef, id, now))),
                db.state, err)
    {
      hide Updated;
      hide Int64;
      hide CanInsert;
      hide Find;
      hide HasPending;
      var source := db.GetBy(db.directory.identity, identity);
      if source.None? {
        return BalanceNotFound;
      }
      var destination := db.GetByBalanceID(WORLD);
      if destination.None? {
        return BalanceNotFound;
      }
      var from := source.value;
      if from.balance.Cmp(amount) < 0 {
        return InsufficientBalance;
      }
      var t := new Transaction(id, None, "withdrawal_" + gatewayRef, amount, from.id, destination.value.id,
                               Inflight, Withdrawal, now);
      err := db.Record(t);
      if err != Ok {
        return;
      }
      var _ := from.balance.Sub(from.balance, amount);
      var _ := from.inflightDebit.Add(from.inflightDebit, amount);
      err := db.UpdateBalance(from);
    }

    method PayoutWebhook(source: string, event: string, gatewayRef: string, report: string,
                         id: Uuid, childRef: Uuid, now: int) returns (err: Reply)
      requires db.begun.None?
      modifies db
      ensures db.begun.None?
      ensures var op := DoPayoutWebhook(source, event, gatewayRef, report, id, childRef, now);
              Performs(old(db.state), ApplyWebhook(old(db.state), op), db.state, err)
    {
      hide Settle;
      hide CanInsert;
      var parent := db.GetByRef("withdrawal_" + gatewayRef);
      if parent.None? {
        return TransactionNotFound;
      }
      match parent.value.status {
        case Applied => return AlreadyCompleted;
        case Rejected | Void => return AlreadyFailed;
        case Inflight =>
      }
      var newStatus;
      if report == "succeeded" {
        newStatus := Applied;
      } else if report == "failed" {
        newStatus := Void;
      } else {
        return UnknownWebhookStatus;
      }
      db.BeginTx();
      err := PayoutWebhookTx(parent.value, newStatus, source, event, gatewayRef, report, id, childRef, now);
      db.EndTx(err);
      if err == Ok && newStatus == Void {
        err := GatewayFailure;
      }
    }

    method PayoutWebhookTx(parent: Transaction, newStatus: Status, source: string, event: string,
                           gatewayRef: string, report: string, id: Uuid, childRef: Uuid, now: int) returns (err: Reply)
      requires db.begun == Some(db.state) && newStatus == NewStatus(report)
      requires parent.preciseAmount.v == Int64(parent.preciseAmount.v)
      modifies db`state
      ensures var op := DoPayoutWebhook(source, event, gatewayRef, report, id, childRef, now);
              SettlesInTx(old(db.state), op, parent.Entry(old(parent.preciseAmount.v)), db.state, err)
    {
      hide Updated;
      hide Int64;
      hide CanInsert;
      hide Find;
      hide HasPending;
      var isNew := db.MarkProcessed(source, event);
      if !isNew {
        return WebhookAlreadyProcessed;
      }
      var debited := db.GetByBalanceID(parent.source);
      if debited.None? {
        return BalanceNotFound;
      }
      var from := debited.value;
      var child := new Transaction(id, Some(parent.id), "withdrawal_" + childRef, parent.preciseAmount,
                                   parent.source, parent.destination, newStatus, parent.kind, now);
      err := db.Record(child);
      if err != Ok {
        return;
      }
      var _ := from.inflightDebit.Sub(from.inflightDebit, parent.preciseAmount);
      if newStatus == Void {
        var _ := from.balance.Add(from.balance, parent.preciseAmount);
      }
      err := db.UpdateBalance(from);
    }

    method Transfer(identity: string, amountText: string, email: string, ref: string, id: Uuid, now: int)
        returns (err: Reply)
      requires db.begun.None?
      modifies db
      ensures db.begun.None?
      ensures var op := DoTransfer(identity, ParsedAmount(parse, amountText), email, ref, id, now);
              PerformsAmount(parse, old(db.state), amountText,
                             ApplyTransfer(db.directory, old(db.state), op), db.state, err)
    {
      hide Centimes;
      var amount := AmountInCentimes(parse, amountText);
      if amount.None? {
        return InvalidAmount;
      }
      if MAX_TRANSFER_AMOUNT < amount.value.v {
        return MaxAmountExceeded;
      }
      db.BeginTx();
      err := TransferTx(identity, amount.value, email, ref, id, now);
      db.EndTx(err);
    }

    method TransferTx(identity: string, amount: BigInt, email: string, ref: string, id: Uuid, now: int)
        returns (err: Reply)
      requires db.begun == Some(db.state) && amount.v <= MAX_TRANSFER_AMOUNT
      modifies db`state
      ensures PerformsInTx(
                old(ApplyTransfer(db.directory, db.state, DoTransfer(identity, amount.v, email, ref, id, now))),
                db.state, err)
    {
      hide Updated;
      hide Int64;
      hide CanInsert;
      hide Find;
      hide HasPending;
      var source := db.GetBy(db.directory.identity, identity);
      if source.None? {
        return BalanceNotFound;
      }
      var from := source.value;
      if from.balance.Cmp(amount) < 0 {
        return InsufficientBalance;
      }
      var destination := db.GetBy(db.directory.email, email);
      if destination.None? {
        return BalanceNotFound;
      }
      var to := destination.value;
      if from.id == to.id {
        return SelfTransfer;
      }
      if to.ledger == MERCHANT_LEDGER {
        return TransferToMerchant;
      }
      err := TransferWrites(from, to, amount, ref, id, now);
    }

    method TransferWrites(from: Balance, to: Balance, amount: BigInt, ref: string, id: Uuid, now: int)
        returns (err: Reply)
      requires from.id in db.state.rows && to.id in db.state.rows && from.id != to.id
      requires from.IsRow(db.state.rows[from.id]) && to.IsRow(db.state.rows[to.id])
      requires Apart(from, to) && !from.Owns(amount) && !to.Owns(amount)
      modifies db`state, from`version, to`version, from.balance, to.balance
      ensures var s := old(db.state);
              var x, y := s.rows[from.id], s.rows[to.id];
              var t := Txn(id, None, ref, Int64(amount.v), from.id, to.id, Applied, P2PTransfer, now);
              err == (if CanInsert(s.log, t) then Ok else UniqueViolation)
              && (err == Ok ==>
                    db.state == s.(log := s.log + [t],
                                   rows := s.rows[from.id := Updated(x, x.bal - amount.v, x.credit, x.debit)]
                                                 [to.id := Updated(y, y.bal + amount.v, y.credit, y.debit)]))
    {
      hide Updated;
      hide Int64;
      hide CanInsert;
      hide Find;
      hide HasPending;
      var _ := from.balance.Sub(from.balance, amount);
      var _ := to.balance.Add(to.balance, amount);
      var t := new Transaction(id, None, ref, amount, from.id, to.id, Applied, P2PTransfer, now);
      err := db.Record(t);
      if err != Ok {
        return;
      }
      err := db.UpdateBalance(from);
      if err != Ok {
        return;
      }
      err := db.UpdateBalance(to);
    }
  }

  /** What the closure of a delivery does once its parent is known to be in flight. */
  predicate SettlesInTx(s: State, op: Op, parent: Txn, s': State, err: Reply)
    requires IsWebhook(op)
  {
    if (op.source, op.event) in s.events then err == WebhookAlreadyProcessed
    else if SettledBalance(op, parent) !in s.rows then err == BalanceNotFound
    else if !CanInsert(s.log, SettleTxn(op, parent)) then err == UniqueViolation
    else err == Ok && s' == Settle(s, op, parent)
  }
}
