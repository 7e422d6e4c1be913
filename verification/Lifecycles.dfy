// Operations that belong together, with anything in between: a reservation and its delivery, a payment
// and the request for its refund, a request and the refund.
module Lifecycles {
  import opened Base
  import opened Ledger
  import opened Serial
  import opened Entries
  import opened View
  import opened Replies

  /** What a committed operation logged is found under its reference whatever runs afterwards. */
  lemma StaysFound(d: Directory, s: State, ops: seq<Op>, t: Txn)
    requires DirectoryOk(d) && Inv(s) && t in s.log
    ensures Extends(s, RunAll(d, s, ops)) && Find(RunAll(d, s, ops).log, t.ref) == Some(t)
  {
    hide RunAll;
    hide Inv;
    RunKeepsInv(d, s, ops);
    var s' := RunAll(d, s, ops);
    FoundByReference(s, t);
    FindAppend(s.log, s'.log[|s.log|..], t.ref);
    assert s'.log == s.log + s'.log[|s.log|..];
  }

  lemma FoundByReference(s: State, t: Txn)
    requires Inv(s) && t in s.log
    ensures Find(s.log, t.ref) == Some(t)
  {
    hide EntryOk;
    assert Find(s.log, t.ref).Some?;
  }

  // ----- A reservation and its delivery -----

  /** y reports on the reservation x makes. */
  predicate ReportsOn(y: Op, x: Op) {
    || (x.DoTopup? && y.DoTopupWebhook? && y.gatewayRef == x.gatewayRef)
    || (x.DoWithdraw? && y.DoPayoutWebhook? && y.gatewayRef == x.gatewayRef)
  }

  /** The entry a top-up or a withdrawal logs is the one its deliveries name from then on. */
  lemma ReservationIsNamed(d: Directory, s: State, x: Op, between: seq<Op>, y: Op) returns (p: Txn)
    requires DirectoryOk(d) && Inv(s) && ReportsOn(y, x) && Apply(d, s, x).Committed?
    ensures x.identity in d.identity
    ensures var b, at := d.identity[x.identity], RunAll(d, Apply(d, s, x).s, between);
            && Extends(s, at) && b in s.rows && Named(at, y) == Some(p)
            && p.status == Inflight && p.amount == Int64(x.amount)
            && b == if x.DoTopup? then p.dst else p.src
  {
    hide Inv;
    hide RunAll;
    hide Int64;
    hide CanInsert;
    hide Taken;
    ApplyKeepsInv(d, s, x);
    var b := d.identity[x.identity];
    p := if x.DoTopup? then TopupTxn(x, b) else WithdrawTxn(x, b);
    StaysFound(d, Apply(d, s, x).s, between, p);
  }

  /**
   * However much runs in between, a delivery for a committed top-up or withdrawal is judged by its
   * report, its event id and the uuids of its own entry, and by nothing else; an accepted one settles
   * the amount that was reserved on the balance it was reserved on.
   */
  lemma ReservationIsSettled(d: Directory, s: State, x: Op, between: seq<Op>, y: Op)
    requires DirectoryOk(d) && Inv(s) && ReportsOn(y, x) && Apply(d, s, x).Committed?
    ensures x.identity in d.identity
    ensures var at := RunAll(d, Apply(d, s, x).s, between);
            var o := Apply(d, at, y);
            var known := y.report == "succeeded" || y.report == "failed";
            var unseen := (y.source, y.event) !in at.events;
            var taken := Taken(at.log, y.id, (if x.DoTopup? then "topup_" else "withdrawal_") + y.childRef);
            && (o == RolledBack(UnknownWebhookStatus) <==> !known)
            && (o == RolledBack(WebhookAlreadyProcessed) <==> known && !unseen)
            && (o == RolledBack(UniqueViolation) <==> known && unseen && taken)
            && (o.Committed? <==> known && unseen && !taken)
            && (o.Committed? ==>
                  && o.reply == (if y.report == "succeeded" then Ok else GatewayFailure)
                  && Gains(at.rows, o.s.rows, map[d.identity[x.identity] := Settlement(y, x.amount)]))
  {
    hide Gains;
    hide Named;
    hide Settlement;
    hide Inv;
    hide RunAll;
    hide Int64;
    hide ApplyWebhook;
    hide Taken;
    var p := ReservationIsNamed(d, s, x, between, y);
    var at := RunAll(d, Apply(d, s, x).s, between);
    DeliveryReplies(at, y);
    if ApplyWebhook(at, y).Committed? {
      AcceptedGains(at, y, p, x.amount);
    }
  }

  lemma AcceptedGains(s: State, y: Op, p: Txn, amount: int)
    requires IsWebhook(y) && ApplyWebhook(s, y).Committed? && Named(s, y) == Some(p) && p.amount == Int64(amount)
    ensures Gains(s.rows, ApplyWebhook(s, y).s.rows,
                  map[if y.DoTopupWebhook? then p.dst else p.src := Settlement(y, amount)])
  {
    hide Int64;
    hide ApplyWebhook;
    hide Named;
    hide Gained;
    hide Settlement;
    DeliveryAccepted(s, y);
    SameGain(s.rows[if y.DoTopupWebhook? then p.dst else p.src], y, amount);
  }

  /** Settling the stored amount is settling the requested one: the columns cannot tell them apart. */
  lemma SameGain(r: Row, y: Op, amount: int)
    requires IsWebhook(y)
    ensures Gained(r, Settlement(y, Int64(amount))) == Gained(r, Settlement(y, amount))
  {
    hide Int64;
    TruncatedAmount(r.bal, amount);
    TruncatedAmount(r.credit, amount);
    TruncatedAmount(r.debit, amount);
  }

  // ----- A payment and its refund -----

  /** The entry of a payment, which is found under its reference from then on. */
  lemma PaymentIsNamed(d: Directory, s: State, pay: Op, between: seq<Op>) returns (p: Txn)
    requires DirectoryOk(d) && Inv(s) && pay.DoPay? && Apply(d, s, pay).Committed?
    ensures pay.user in d.user && pay.merchant in d.merchant
    ensures var at := RunAll(d, Apply(d, s, pay).s, between);
            && Extends(s, at) && Find(at.log, "payment_" + pay.payRef) == Some(p)
            && p.status == Applied && p.created == pay.now && p.amount == pay.price - Fee(pay.price)
            && p.src == d.user[pay.user] && p.dst == d.merchant[pay.merchant] && p.src != p.dst
            && p.ref == "payment_" + pay.payRef && p.id == pay.id
            && p.src in at.rows && p.dst in at.rows
  {
    hide Inv;
    hide RunAll;
    hide Int64;
    hide CanInsert;
    hide Fee;
    ApplyKeepsInv(d, s, pay);
    FeeSplit(pay.price);
    p := PayTxn(pay, d.user[pay.user], d.merchant[pay.merchant]);
    StaysFound(d, Apply(d, s, pay).s, between, p);
  }

  /**
   * From its commit on, whatever runs, a payment can be refunded on request for thirty days: a request
   * is refused for its age, for its own id or for one that is still pending, and for no other reason.
   */
  lemma PaymentIsRefundable(d: Directory, s: State, pay: Op, between: seq<Op>, ask: Op)
    requires DirectoryOk(d) && Inv(s) && pay.DoPay? && Apply(d, s, pay).Committed?
    requires ask.DoRequestRefund? && ask.ref == "payment_" + pay.payRef
    ensures var at := RunAll(d, Apply(d, s, pay).s, between);
            var o := Apply(d, at, ask);
            var intime := ask.now - pay.now <= 2592000000000000;
            var taken := ask.id in at.reqs || exists q | q in at.reqs ::
                           at.reqs[q].ref == ask.ref && at.reqs[q].status == Pending;
            && (o == RolledBack(NonRefundableExpired) <==> !intime)
            && (o == RolledBack(UniqueViolation) <==> intime && taken)
            && (o.Committed? <==> intime && !taken)
            && (o.Committed? ==> o.s.reqs == at.reqs[ask.id := Request(ask.ref, Pending, ask.now)])
  {
    hide Inv;
    hide RunAll;
    hide ApplyPay;
    hide ApplyRequestRefund;
    var p := PaymentIsNamed(d, s, pay, between);
    RequestRefundReplies(RunAll(d, Apply(d, s, pay).s, between), ask);
  }

  /**
   * While a request for it waits, whatever ran since, a payment is refunded if and only if the
   * merchant still has the net price and the id and the reference of the refund are new.
   */
  lemma RequestIsRefunded(d: Directory, s: State, pay: Op, between: seq<Op>, refund: Op)
    requires DirectoryOk(d) && Inv(s) && pay.DoPay? && Apply(d, s, pay).Committed? && refund.DoRefund?
    requires var reqs := RunAll(d, Apply(d, s, pay).s, between).reqs;
             && refund.request in reqs && reqs[refund.request].status == Pending
             && reqs[refund.request].ref == "payment_" + pay.payRef
    ensures pay.user in d.user && pay.merchant in d.merchant
    ensures var at := RunAll(d, Apply(d, s, pay).s, between);
            var o := Apply(d, at, refund);
            var c, m := d.user[pay.user], d.merchant[pay.merchant];
            var net := pay.price - Fee(pay.price);
            var taken := Taken(at.log, refund.id, "payment_" + pay.payRef + "_refund");
            && m in at.rows && c in at.rows && c != m
            && (o == RolledBack(MerchantInsufficientBalance) <==> at.rows[m].bal < net)
            && (o == RolledBack(UniqueViolation) <==> net <= at.rows[m].bal && taken)
            && (o.Committed? <==> net <= at.rows[m].bal && !taken)
            && (o.Committed? ==>
                  && Gains(at.rows, o.s.rows, map[m := Gain(-net, 0, 0), c := Gain(net, 0, 0)])
                  && refund.request in o.s.reqs && o.s.reqs[refund.request].status == Completed)
  {
    hide Gains;
    hide Inv;
    hide RunAll;
    hide ApplyPay;
    hide ApplyRefund;
    hide Fee;
    var p := PaymentIsNamed(d, s, pay, between);
    var at := RunAll(d, Apply(d, s, pay).s, between);
    RefundReplies(at, refund);
    if ApplyRefund(at, refund).Committed? {
      RefundAccepted(at, refund);
    }
  }

  /** In a well-formed database a claimed refund is refused for lack of funds or for its uuid, and for nothing else. */
  lemma RefundIsRefusedFor(s: State, op: Op)
    requires Inv(s) && op.DoRefund? && ApplyRefund(s, op).RolledBack?
    ensures ApplyRefund(s, op).reply in {NoPendingRequests, MerchantInsufficientBalance, UniqueViolation}
  {
    hide ApplyRefund;
    RefundReplies(s, op);
    if op.request in s.reqs {
      assert RequestOk(s.log, s.reqs[op.request]);
      RefundableIsMove(s, Find(s.log, s.reqs[op.request].ref).value);
    }
  }
}
