// The service contract: when each operation is accepted, what it then writes, and which reply every
// refusal gives. The caps, the window, the prefixes and the names are written out here once more.
module Replies {
  import opened Base
  import opened Ledger
  import opened Serial

  /** The balance a join leads to, if there is one. */
  function Joined(index: map<string, BalanceId>, key: string, rows: map<BalanceId, Row>): Option<BalanceId> {
    if key in index && index[key] in rows then Some(index[key]) else None
  }

  /** An entry has this id already, or this reference. */
  predicate Taken(log: seq<Txn>, id: Uuid, ref: string) {
    exists u | u in log :: u.id == id || u.ref == ref
  }

  /** What is added to the three columns of a row. */
  datatype Gain = Gain(bal: int, credit: int, debit: int)

  function Gained(r: Row, g: Gain): Row {
    Row(Int64(r.bal + g.bal), Int64(r.credit + g.credit), Int64(r.debit + g.debit), r.version + 1, r.ledger)
  }

  /** These balances change by so much, one version up, and all other rows stay as they are. */
  predicate Gains(rows: map<BalanceId, Row>, rows': map<BalanceId, Row>, gains: map<BalanceId, Gain>) {
    && rows'.Keys == rows.Keys && gains.Keys <= rows.Keys
    && (forall b | b in rows && b !in gains :: rows'[b] == rows[b])
    && (forall b | b in gains :: rows'[b] == Gained(rows[b], gains[b]))
  }

  /** These rows and entries are all that changed. */
  predicate Books(s: State, s': State, gains: map<BalanceId, Gain>, more: seq<Txn>) {
    Gains(s.rows, s'.rows, gains) && s'.log == s.log + more && s'.events == s.events && s'.reqs == s.reqs
  }

  // ----- Top-ups and withdrawals -----

  /** A top-up of 100000 dinars is still accepted, one of a centime more is not. */
  lemma TopupReplies(d: Directory, s: State, op: Op)
    requires op.DoTopup?
    ensures var o := ApplyTopup(d, s, op);
            var b := Joined(d.identity, op.identity, s.rows);
            var open := op.amount <= 10000000 && b.Some? && "@World" in s.rows;
            var taken := Taken(s.log, op.id, "topup_" + op.gatewayRef);
            && (o == RolledBack(MaxAmountExceeded) <==> 10000000 < op.amount)
            && (o == RolledBack(BalanceNotFound) <==> op.amount <= 10000000 && !(b.Some? && "@World" in s.rows))
            && (o == RolledBack(UniqueViolation) <==> open && taken)
            && (o.Committed? <==> open && !taken)
            && (o.Committed? ==>
                  && o.reply == Ok
                  && Books(s, o.s, map[b.value := Gain(0, op.amount, 0)],
                            [Txn(op.id, None, "topup_" + op.gatewayRef, Int64(op.amount), "@World", b.value,
                                 Inflight, Topup, op.now)]))
  {
    hide Int64;
  }

  /** A withdrawal may take the whole balance, up to 50000 dinars. */
  lemma WithdrawReplies(d: Directory, s: State, op: Op)
    requires op.DoWithdraw?
    ensures var o := ApplyWithdraw(d, s, op);
            var b := Joined(d.identity, op.identity, s.rows);
            var open := op.amount <= 5000000 && b.Some? && "@World" in s.rows;
            var covered := open && op.amount <= s.rows[b.value].bal;
            var taken := Taken(s.log, op.id, "withdrawal_" + op.gatewayRef);
            && (o == RolledBack(MaxAmountExceeded) <==> 5000000 < op.amount)
            && (o == RolledBack(BalanceNotFound) <==> op.amount <= 5000000 && !(b.Some? && "@World" in s.rows))
            && (o == RolledBack(InsufficientBalance) <==> open && s.rows[b.value].bal < op.amount)
            && (o == RolledBack(UniqueViolation) <==> covered && taken)
            && (o.Committed? <==> covered && !taken)
            && (o.Committed? ==>
                  && o.reply == Ok
                  && Books(s, o.s, map[b.value := Gain(-op.amount, 0, op.amount)],
                            [Txn(op.id, None, "withdrawal_" + op.gatewayRef, Int64(op.amount), b.value, "@World",
                                 Inflight, Withdrawal, op.now)]))
  {
    hide Int64;
  }

  // ----- Deliveries -----

  /** The entry a delivery names. */
  function Named(s: State, op: Op): Option<Txn>
    requires IsWebhook(op)
  {
    Find(s.log, (if op.DoTopupWebhook? then "topup_" else "withdrawal_") + op.gatewayRef)
  }

  /** What a delivery does to the balance it settles. */
  function Settlement(op: Op, amount: int): Gain
    requires IsWebhook(op)
  {
    if op.DoTopupWebhook? then Gain(if op.report == "succeeded" then amount else 0, -amount, 0)
    else Gain(if op.report == "succeeded" then 0 else amount, 0, -amount)
  }

  lemma DeliveryReplies(s: State, op: Op)
    requires IsWebhook(op)
    ensures var o, p := ApplyWebhook(s, op), Named(s, op);
            var inflight := p.Some? && p.value.status == Inflight;
            var open := inflight && (op.report == "succeeded" || op.report == "failed")
                        && (op.source, op.event) !in s.events;
            && (o == RolledBack(TransactionNotFound) <==> p.None?)
            && (o == RolledBack(AlreadyCompleted) <==> p.Some? && p.value.status == Applied)
            && (o == RolledBack(AlreadyFailed) <==> p.Some? && (p.value.status == Rejected || p.value.status == Void))
            && (o == RolledBack(UnknownWebhookStatus) <==>
                  inflight && op.report != "succeeded" && op.report != "failed")
            && (o == RolledBack(WebhookAlreadyProcessed) <==>
                  inflight && (op.report == "succeeded" || op.report == "failed") && (op.source, op.event) in s.events)
            && (open ==>
                  var b := if op.DoTopupWebhook? then p.value.dst else p.value.src;
                  var ref := (if op.DoTopupWebhook? then "topup_" else "withdrawal_") + op.childRef;
                  && (o == RolledBack(BalanceNotFound) <==> b !in s.rows)
                  && (o == RolledBack(UniqueViolation) <==> b in s.rows && Taken(s.log, op.id, ref))
                  && (o.Committed? <==> b in s.rows && !Taken(s.log, op.id, ref)))
            && (o.Committed? ==> open && o.reply == if op.report == "succeeded" then Ok else GatewayFailure)
  {
    hide SettledRow;
  }

  lemma DeliveryAccepted(s: State, op: Op)
    requires IsWebhook(op) && ApplyWebhook(s, op).Committed?
    ensures Named(s, op).Some?
    ensures var p, s' := Named(s, op).value, ApplyWebhook(s, op).s;
            && Gains(s.rows, s'.rows,
                     map[if op.DoTopupWebhook? then p.dst else p.src := Settlement(op, p.amount)])
            && s'.log == s.log + [Txn(op.id, Some(p.id),
                                      (if op.DoTopupWebhook? then "topup_" else "withdrawal_") + op.childRef,
                                      p.amount, p.src, p.dst, if op.report == "succeeded" then Applied else Void,
                                      p.kind, op.now)]
            && s'.events == s.events + {(op.source, op.event)} && s'.reqs == s.reqs
  {
    hide Int64;
  }

  // ----- Transfers -----

  /** The checks of a transfer in their order: cap, payer, funds, receiver, oneself, merchant, uniqueness. */
  lemma TransferReplies(d: Directory, s: State, op: Op)
    requires op.DoTransfer?
    ensures var o := ApplyTransfer(d, s, op);
            var a, b := Joined(d.identity, op.identity, s.rows), Joined(d.email, op.email, s.rows);
            var paid := op.amount <= 5000000 && a.Some? && op.amount <= s.rows[a.value].bal;
            var open := paid && b.Some? && a != b && s.rows[b.value].ledger != "merchant_ledger_id";
            && (o == RolledBack(MaxAmountExceeded) <==> 5000000 < op.amount)
            && (o == RolledBack(BalanceNotFound) <==> (op.amount <= 5000000 && a.None?) || (paid && b.None?))
            && (o == RolledBack(InsufficientBalance) <==>
                  op.amount <= 5000000 && a.Some? && s.rows[a.value].bal < op.amount)
            && (o == RolledBack(SelfTransfer) <==> paid && a == b)
            && (o == RolledBack(TransferToMerchant) <==>
                  paid && b.Some? && a != b && s.rows[b.value].ledger == "merchant_ledger_id")
            && (o == RolledBack(UniqueViolation) <==> open && Taken(s.log, op.id, op.ref))
            && (o.Committed? <==> open && !Taken(s.log, op.id, op.ref))
            && (o.Committed? ==>
                  && o.reply == Ok
                  && Books(s, o.s, map[a.value := Gain(-op.amount, 0, 0), b.value := Gain(op.amount, 0, 0)],
                            [Txn(op.id, None, op.ref, Int64(op.amount), a.value, b.value,
                                 Applied, P2PTransfer, op.now)]))
  {
    hide Int64;
  }

  // ----- Payments -----

  /** One of the two legs, or both of them, would repeat an id or a reference. */
  predicate LegTaken(s: State, op: Op)
    requires op.DoPay?
  {
    var p, f := "payment_" + op.payRef, "revenue_" + op.feeRef;
    Taken(s.log, op.id, p) || Taken(s.log, op.feeId, f) || op.id == op.feeId
  }

  /** The two legs of a payment differ by their prefix, whatever uuids follow it. */
  lemma LegsDiffer(x: string, y: string)
    ensures "payment_" + x != "revenue_" + y
  {
    assert ("payment_" + x)[0] == 'p' && ("revenue_" + y)[0] == 'r';
  }

  /** The checks of a payment in their order: payer, funds, merchant and platform, uniqueness, distinct balances. */
  lemma PayReplies(d: Directory, s: State, op: Op)
    requires op.DoPay?
    ensures var o := ApplyPay(d, s, op);
            var a, m := Joined(d.user, op.user, s.rows), Joined(d.merchant, op.merchant, s.rows);
            var paid := a.Some? && op.price <= s.rows[a.value].bal;
            var open := paid && m.Some? && "@Revenue" in s.rows;
            var distinct := a != m && a != Some("@Revenue") && m != Some("@Revenue");
            && (o == RolledBack(BalanceNotFound) <==> a.None? || (paid && !(m.Some? && "@Revenue" in s.rows)))
            && (o == RolledBack(InsufficientBalance) <==> a.Some? && s.rows[a.value].bal < op.price)
            && (o == RolledBack(UniqueViolation) <==> open && LegTaken(s, op))
            && (o == RolledBack(OptimisticLock) <==> open && !LegTaken(s, op) && !distinct)
            && (o.Committed? <==> open && !LegTaken(s, op) && distinct)
            && (o.Committed? ==> o.reply == Ok)
  {
    hide Updated;
    hide Fee;
    LegsDiffer(op.payRef, op.feeRef);
  }

  /** The customer pays the price; the fee is its least whole 1.5 percent, and the merchant gets the rest. */
  lemma PayAccepted(d: Directory, s: State, op: Op) returns (fee: int)
    requires op.DoPay? && ApplyPay(d, s, op).Committed?
    ensures 15 * op.price <= 1000 * fee < 15 * op.price + 1000
    ensures var a, m := Joined(d.user, op.user, s.rows), Joined(d.merchant, op.merchant, s.rows);
            && a.Some? && m.Some? && a != m && a != Some("@Revenue") && m != Some("@Revenue")
            && Books(s, ApplyPay(d, s, op).s,
                      map[a.value := Gain(-(op.price as int), 0, 0), m.value := Gain(op.price - fee, 0, 0),
                          "@Revenue" := Gain(fee, 0, 0)],
                      [Txn(op.id, None, "payment_" + op.payRef, Int64(op.price - fee), a.value, m.value,
                           Applied, Payment, op.now),
                       Txn(op.feeId, Some(op.id), "revenue_" + op.feeRef, Int64(fee), a.value, "@Revenue",
                           Applied, PlatformRevenue, op.now)])
  {
    hide Int64;
    hide CanInsert;
    hide Gains;
    fee := Fee(op.price);
    var a, m := d.user[op.user], d.merchant[op.merchant];
    var x, y, z := s.rows[a], s.rows[m], s.rows[REVENUE];
    ThreeGains(s.rows, a, Gain(-(op.price as int), 0, 0), m, Gain(op.price - fee, 0, 0), REVENUE, Gain(fee, 0, 0));
    assert Updated(x, x.bal - op.price, x.credit, x.debit) == Gained(x, Gain(-(op.price as int), 0, 0));
    assert Updated(y, y.bal + (op.price - fee), y.credit, y.debit) == Gained(y, Gain(op.price - fee, 0, 0));
    assert Updated(z, z.bal + fee, z.credit, z.debit) == Gained(z, Gain(fee, 0, 0));
  }

  lemma ThreeGains(rows: map<BalanceId, Row>, a: BalanceId, x: Gain, b: BalanceId, y: Gain, c: BalanceId, z: Gain)
    requires a in rows && b in rows && c in rows && a != b && a != c && b != c
    ensures Gains(rows, rows[a := Gained(rows[a], x)][b := Gained(rows[b], y)][c := Gained(rows[c], z)],
                  map[a := x, b := y, c := z])
  {
    hide Gained;
  }

  // ----- Refunds -----

  /** A reference is a payment's if it is the word itself or goes on with an underscore. */
  lemma {:induction false} FirstTokenIs(ref: string, token: string)
    requires forall i | 0 <= i < |token| :: token[i] != '_'
    ensures FirstToken(ref) == token <==> ref == token || token + "_" <= ref
  {
    if ref == [] {
    } else if ref[0] == '_' {
      assert token != [] ==> (token + "_")[0] == token[0];
    } else if token != [] && token[0] == ref[0] {
      FirstTokenIs(ref[1..], token[1..]);
      assert ref == [ref[0]] + ref[1..] && token == [token[0]] + token[1..];
      assert token + "_" == [token[0]] + (token[1..] + "_");
    } else {
      assert token != [] ==> (token + "_")[0] == token[0];
    }
  }

  predicate NamesPayment(ref: string) {
    ref == "payment" || "payment_" <= ref
  }

  lemma PaymentsByName(ref: string)
    ensures IsPayment(ref) <==> NamesPayment(ref)
  {
    FirstTokenIs(ref, "payment");
    assert "payment" + "_" == "payment_";
  }

  /** A refund can be asked for, once at a time, until the applied entry is older than thirty days. */
  lemma RequestRefundReplies(s: State, op: Op)
    requires op.DoRequestRefund?
    ensures var o, t := ApplyRequestRefund(s, op), Find(s.log, op.ref);
            var applied := NamesPayment(op.ref) && t.Some? && t.value.status == Applied;
            var open := applied && op.now - t.value.created <= 2592000000000000;
            var taken := op.id in s.reqs || exists q | q in s.reqs ::
                           s.reqs[q].ref == op.ref && s.reqs[q].status == Pending;
            && (o == RolledBack(NonRefundable) <==>
                  !NamesPayment(op.ref) || (t.Some? && t.value.status != Applied))
            && (o == RolledBack(TransactionNotFound) <==> NamesPayment(op.ref) && t.None?)
            && (o == RolledBack(NonRefundableExpired) <==>
                  applied && 2592000000000000 < op.now - t.value.created)
            && (o == RolledBack(UniqueViolation) <==> open && taken)
            && (o.Committed? <==> open && !taken)
            && (o.Committed? ==>
                  && o.reply == Ok && Books(s, o.s.(reqs := s.reqs), map[], [])
                  && o.s.reqs == s.reqs[op.id := Request(op.ref, Pending, op.now)])
  {
    hide IsPayment;
    hide NamesPayment;
    PaymentsByName(op.ref);
  }

  /** The checks of a refund in their order: claim, entry, balances, funds, distinct balances, uniqueness. */
  lemma RefundReplies(s: State, op: Op)
    requires op.DoRefund?
    ensures var o := ApplyRefund(s, op);
            var claimed := op.request in s.reqs && s.reqs[op.request].status == Pending;
            && (o == RolledBack(NoPendingRequests) <==> !claimed)
            && (claimed ==>
                  var t := Find(s.log, s.reqs[op.request].ref);
                  var found := t.Some? && t.value.dst in s.rows && t.value.src in s.rows;
                  var paid := found && t.value.amount <= s.rows[t.value.dst].bal;
                  var taken := found && Taken(s.log, op.id, t.value.ref + "_refund");
                  && (o == RolledBack(TransactionNotFound) <==> t.None?)
                  && (o == RolledBack(BalanceNotFound) <==> t.Some? && !found)
                  && (o == RolledBack(MerchantInsufficientBalance) <==> found && !paid)
                  && (o == RolledBack(OptimisticLock) <==> paid && t.value.dst == t.value.src)
                  && (o == RolledBack(UniqueViolation) <==> paid && t.value.dst != t.value.src && taken)
                  && (o.Committed? <==> paid && t.value.dst != t.value.src && !taken)
                  && (o.Committed? ==> o.reply == Ok))
  {
    hide Updated;
  }

  lemma RefundAccepted(s: State, op: Op)
    requires op.DoRefund? && ApplyRefund(s, op).Committed?
    ensures op.request in s.reqs && Find(s.log, s.reqs[op.request].ref).Some?
    ensures var q, s' := s.reqs[op.request], ApplyRefund(s, op).s;
            var t := Find(s.log, q.ref).value;
            && t.dst != t.src
            && Books(s, s'.(reqs := s.reqs),
                     map[t.dst := Gain(-(t.amount as int), 0, 0), t.src := Gain(t.amount, 0, 0)],
                     [Txn(op.id, Some(t.id), q.ref + "_refund", t.amount, t.dst, t.src, Applied, Refund, op.now)])
            && s'.reqs == s.reqs[op.request := Request(q.ref, Completed, q.created)]
  {
    hide Int64;
    hide CanInsert;
  }

  /** Marking never fails, and touches the status of that request only. */
  lemma MarkFailedAccepted(s: State, op: Op)
    requires op.DoMarkFailed?
    ensures var o := ApplyMarkFailed(s, op);
            && o.Committed? && o.reply == Ok && Books(s, o.s.(reqs := s.reqs), map[], [])
            && o.s.reqs.Keys == s.reqs.Keys
            && forall q | q in s.reqs ::
                 o.s.reqs[q] == if q == op.request then Request(s.reqs[q].ref, Failed, s.reqs[q].created) else s.reqs[q]
  {
  }
}
