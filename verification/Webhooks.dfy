// Webhook deliveries take effect at most once per (source, event).
module Webhooks {
  import opened Base
  import opened Ledger
  import opened Serial
  import opened Entries

  function EventOf(op: Op): (string, string)
    requires IsWebhook(op)
  {
    (op.source, op.event)
  }

  /** An entry made by a webhook delivery. */
  predicate IsSettlement(t: Txn) {
    (t.kind == Topup || t.kind == Withdrawal) && t.status != Inflight
  }

  function Settlements(log: seq<Txn>): nat {
    if log == [] then 0
    else Settlements(log[..|log| - 1]) + if IsSettlement(log[|log| - 1]) then 1 else 0
  }

  lemma SettlementsSnoc(log: seq<Txn>, t: Txn)
    ensures Settlements(log + [t]) == Settlements(log) + if IsSettlement(t) then 1 else 0
  {
    assert (log + [t])[..|log|] == log;
  }

  lemma WebhookKeepsEventCount(s: State, op: Op)
    requires Inv(s) && IsWebhook(op) && ApplyWebhook(s, op).Committed? && |s.events| == Settlements(s.log)
    ensures var s' := ApplyWebhook(s, op).s; |s'.events| == Settlements(s'.log)
  {
    hide SettledRow;
    hide ApplyWebhook;
    hide Inv;
    var p := DeliverySettlesItsOwnKind(s, op);
    SettlementsSnoc(s.log, SettleTxn(op, p));
  }

  lemma PayKeepsEventCount(d: Directory, s: State, op: Op)
    requires op.DoPay? && ApplyPay(d, s, op).Committed? && |s.events| == Settlements(s.log)
    ensures var s' := ApplyPay(d, s, op).s; |s'.events| == Settlements(s'.log)
  {
    hide Updated;
    var a := d.user[op.user];
    var p, f := PayTxn(op, a, d.merchant[op.merchant]), FeeTxn(op, a);
    SettlementsSnoc(s.log, p);
    SettlementsSnoc(s.log + [p], f);
    assert s.log + [p] + [f] == s.log + [p, f];
  }

  /** A committed delivery records one event and one settlement; nothing else records either. */
  lemma ApplyKeepsEventCount(d: Directory, s: State, op: Op)
    requires Inv(s) && |s.events| == Settlements(s.log)
    ensures var s' := After(s, Apply(d, s, op)); |s'.events| == Settlements(s'.log)
  {
    hide Find;
    hide CanInsert;
    hide ApplyWebhook;
    hide ApplyPay;
    hide Updated;
    hide Inv;
    if Apply(d, s, op).Committed? {
      match op
      case DoTopup(identity, _, _, _, _) => SettlementsSnoc(s.log, TopupTxn(op, d.identity[identity]));
      case DoWithdraw(identity, _, _, _, _) => SettlementsSnoc(s.log, WithdrawTxn(op, d.identity[identity]));
      case DoTransfer(identity, _, email, _, _, _) =>
        SettlementsSnoc(s.log, TransferTxn(op, d.identity[identity], d.email[email]));
      case DoPay(user, merchant, _, _, _, _, _, _) => PayKeepsEventCount(d, s, op);
      case DoRequestRefund(_, _, _) =>
      case DoRefund(request, _, _) =>
        SettlementsSnoc(s.log, RefundTxn(op, Find(s.log, s.reqs[request].ref).value));
      case DoMarkFailed(_) =>
      case _ => WebhookKeepsEventCount(s, op);
    }
  }

  /** In every reachable database there are as many settlements as processed events. */
  lemma {:induction false} EventsMatchSettlements(d: Directory, init: State, ops: seq<Op>)
    requires DirectoryOk(d) && Fresh(init)
    ensures |RunAll(d, init, ops).events| == Settlements(RunAll(d, init, ops).log)
    decreases |ops|
  {
    hide Apply;
    if ops != [] {
      var n := |ops| - 1;
      EventsMatchSettlements(d, init, ops[..n]);
      RunKeepsInv(d, init, ops[..n]);
      ApplyKeepsEventCount(d, RunAll(d, init, ops[..n]), ops[n]);
    }
  }

  /** A second delivery of a recorded event changes nothing. */
  lemma DuplicateRollsBack(d: Directory, s: State, op: Op)
    requires IsWebhook(op) && EventOf(op) in s.events
    ensures Apply(d, s, op).RolledBack?
  {
  }

  /** The attempts that are left when every delivery of an already recorded event is dropped. */
  function WithoutDuplicates(d: Directory, s: State, ops: seq<Op>): seq<Op> {
    if ops == [] then []
    else
      var n := |ops| - 1;
      var rest := WithoutDuplicates(d, s, ops[..n]);
      if IsWebhook(ops[n]) && EventOf(ops[n]) in RunAll(d, s, ops[..n]).events then rest else rest + [ops[n]]
  }

  /** Redelivery, however often and whenever it happens, does not show in the outcome. */
  lemma {:induction false} RedeliveryIsInvisible(d: Directory, s: State, ops: seq<Op>)
    ensures RunAll(d, s, WithoutDuplicates(d, s, ops)) == RunAll(d, s, ops)
    decreases |ops|
  {
    hide Apply;
    if ops != [] {
      var n := |ops| - 1;
      var mid := RunAll(d, s, ops[..n]);
      RedeliveryIsInvisible(d, s, ops[..n]);
      if IsWebhook(ops[n]) && EventOf(ops[n]) in mid.events {
        DuplicateRollsBack(d, mid, ops[n]);
      } else {
        RunAllSnoc(d, s, WithoutDuplicates(d, s, ops[..n]), ops[n]);
      }
    }
  }

  lemma CommittedRecordsEvent(d: Directory, s: State, op: Op)
    requires IsWebhook(op) && Apply(d, s, op).Committed?
    ensures EventOf(op) in Apply(d, s, op).s.events
  {
  }

  /** Two committed deliveries of one run carry different events. */
  lemma CommittedEventsDiffer(d: Directory, s: State, ops: seq<Op>, i: nat, j: nat)
    requires DirectoryOk(d) && Inv(s) && i < j < |ops| && IsWebhook(ops[i]) && IsWebhook(ops[j])
    requires Apply(d, RunAll(d, s, ops[..i]), ops[i]).Committed?
    requires Apply(d, RunAll(d, s, ops[..j]), ops[j]).Committed?
    ensures EventOf(ops[i]) != EventOf(ops[j])
  {
    hide Inv;
    hide Apply;
    var at := RunAll(d, s, ops[..i + 1]);
    assert ops[..i + 1] == ops[..i] + [ops[i]];
    RunAllSnoc(d, s, ops[..i], ops[i]);
    CommittedRecordsEvent(d, RunAll(d, s, ops[..i]), ops[i]);
    assert ops[..j] == ops[..i + 1] + ops[i + 1..j];
    RunAllConcat(d, s, ops[..i + 1], ops[i + 1..j]);
    RunKeepsInv(d, s, ops[..i + 1]);
    RunKeepsInv(d, at, ops[i + 1..j]);
    if EventOf(ops[i]) == EventOf(ops[j]) {
      DuplicateRollsBack(d, RunAll(d, s, ops[..j]), ops[j]);
    }
  }

  /** Equal up to the order in which the entries were logged. */
  predicate SameUpToLogOrder(s: State, s': State) {
    s.rows == s'.rows && s.events == s'.events && s.reqs == s'.reqs && multiset(s.log) == multiset(s'.log)
  }

  /** A row moved by the given amounts. */
  function Shifted(r: Row, bal: int, credit: int, debit: int): Row {
    Updated(r, r.bal + bal, r.credit + credit, r.debit + debit)
  }

  lemma ShiftsCommute(r: Row, a: int, b: int, c: int, a': int, b': int, c': int)
    ensures Shifted(Shifted(r, a, b, c), a', b', c') == Shifted(Shifted(r, a', b', c'), a, b, c)
  {
    hide Int64;
    Int64Swap(r.bal, a, a');
    Int64Swap(r.credit, b, b');
    Int64Swap(r.debit, c, c');
  }

  /** What a delivery adds to the three columns. */
  function Moves(op: Op, amount: I64): (int, int, int)
    requires IsWebhook(op)
  {
    var paid := if (NewStatus(op.report) == Applied) == op.DoTopupWebhook? then amount as int else 0;
    if op.DoTopupWebhook? then (paid, -(amount as int), 0) else (paid, 0, -(amount as int))
  }

  lemma SettledRowIsShift(op: Op, r: Row, amount: I64)
    requires IsWebhook(op)
    ensures var m := Moves(op, amount); SettledRow(op, r, amount) == Shifted(r, m.0, m.1, m.2)
  {
    hide Wraps;
  }

  lemma SettledRowsCommute(x: Op, y: Op, r: Row, a: I64, b: I64)
    requires IsWebhook(x) && IsWebhook(y)
    ensures SettledRow(y, SettledRow(x, r, a), b) == SettledRow(x, SettledRow(y, r, b), a)
  {
    hide SettledRow;
    hide Shifted;
    SettledRowIsShift(x, r, a);
    SettledRowIsShift(y, r, b);
    SettledRowIsShift(y, SettledRow(x, r, a), b);
    SettledRowIsShift(x, SettledRow(y, r, b), a);
    var m, n := Moves(x, a), Moves(y, b);
    ShiftsCommute(r, m.0, m.1, m.2, n.0, n.1, n.2);
  }

  /** The second of two deliveries did not wait for the first: it could have come before it. */
  lemma SecondCommitsAlone(s: State, x: Op, y: Op)
    requires Inv(s) && IsWebhook(x) && IsWebhook(y)
    requires ApplyWebhook(s, x).Committed? && ApplyWebhook(ApplyWebhook(s, x).s, y).Committed?
    ensures ApplyWebhook(s, y).Committed?
    ensures Find(s.log, ParentRef(y)) == Find(ApplyWebhook(s, x).s.log, ParentRef(y))
  {
    hide Inv;
    hide SettledRow;
    var p := DeliverySettlesItsOwnKind(s, x);
    FindBefore(s.log, SettleTxn(x, p), ParentRef(y));
  }

  lemma SettleCommutes(s: State, x: Op, y: Op, p: Txn, q: Txn)
    requires IsWebhook(x) && IsWebhook(y)
    requires SettledBalance(x, p) in s.rows && SettledBalance(y, q) in s.rows
    ensures SameUpToLogOrder(Settle(Settle(s, x, p), y, q), Settle(Settle(s, y, q), x, p))
  {
    hide SettledRow;
    hide SettleTxn;
    var a, b := SettledBalance(x, p), SettledBalance(y, q);
    var one, two := Settle(Settle(s, x, p), y, q), Settle(Settle(s, y, q), x, p);
    assert one.rows == two.rows by {
      if a == b {
        SettledRowsCommute(x, y, s.rows[a], p.amount, q.amount);
      }
    }
    assert multiset(one.log) == multiset(s.log) + multiset{SettleTxn(x, p)} + multiset{SettleTxn(y, q)};
    assert multiset(two.log) == multiset(s.log) + multiset{SettleTxn(y, q)} + multiset{SettleTxn(x, p)};
  }

  /** Deliveries may arrive in either order: the database ends the same up to log order. */
  lemma DeliveriesCommute(s: State, x: Op, y: Op)
    requires Inv(s) && IsWebhook(x) && IsWebhook(y)
    requires ApplyWebhook(s, x).Committed? && ApplyWebhook(ApplyWebhook(s, x).s, y).Committed?
    ensures ApplyWebhook(s, y).Committed? && ApplyWebhook(ApplyWebhook(s, y).s, x).Committed?
    ensures SameUpToLogOrder(ApplyWebhook(ApplyWebhook(s, x).s, y).s, ApplyWebhook(ApplyWebhook(s, y).s, x).s)
  {
    hide SettledRow;
    hide SettleTxn;
    hide ParentRef;
    hide Inv;
    SecondCommitsAlone(s, x, y);
    var p, q := Find(s.log, ParentRef(x)).value, Find(s.log, ParentRef(y)).value;
    var c, e := SettleTxn(x, p), SettleTxn(y, q);
    FindAppend(s.log, [e], ParentRef(x));
    assert CanInsert(s.log + [e], c) by {
      assert c in s.log + [c];
    }
    SettleCommutes(s, x, y, p, q);
  }
}
