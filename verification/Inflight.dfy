// In-flight columns hold exactly the reservations that no delivery has settled yet, provided the
// gateway reports each of its references under one event id.
module Inflight {
  import opened Base
  import opened Ledger
  import opened Serial
  import opened Entries
  import opened View
  import opened Webhooks
  import opened Solvency

  predicate Settled(log: seq<Txn>, p: Txn) {
    exists c | c in log :: Settles(c, p)
  }

  /** The reservations of `log` on field f of balance b that nothing in `all` settles. */
  function Outstanding(f: Field, log: seq<Txn>, all: seq<Txn>, b: BalanceId): int {
    if log == [] then 0
    else
      var t := log[|log| - 1];
      Outstanding(f, log[..|log| - 1], all, b)
      + if t.status == Inflight && !Settled(all, t) then Share(f, t, b) else 0
  }

  /** The gateway may redeliver, but never reports one reference under two event ids. */
  predicate OneEventPerReference(ops: seq<Op>) {
    forall x, y | x in ops && y in ops && IsWebhook(x) && IsWebhook(y) ::
      ParentRef(x) == ParentRef(y) ==> EventOf(x) == EventOf(y)
  }

  /** Some delivery of this run named p, and its event is recorded. */
  predicate Reported(ops: seq<Op>, s: State, p: Txn) {
    exists x | x in ops :: IsWebhook(x) && ParentRef(x) == p.ref && EventOf(x) in s.events
  }

  predicate SettledAreReported(ops: seq<Op>, s: State) {
    forall p | p in s.log && p.status == Inflight && Settled(s.log, p) :: Reported(ops, s, p)
  }

  ghost predicate InflightExact(s: State) {
    forall f, b | f != Bal :: Sum(f, s.log, b) == Outstanding(f, s.log, s.log, b)
  }

  /** An entry that settles nothing in `log` leaves the reservations in it outstanding. */
  lemma {:induction false} OutstandingKept(f: Field, log: seq<Txn>, all: seq<Txn>, t: Txn, b: BalanceId)
    requires forall p | p in log :: !Settles(t, p)
    ensures Outstanding(f, log, all + [t], b) == Outstanding(f, log, all, b)
  {
    if log != [] {
      var n := |log| - 1;
      OutstandingKept(f, log[..n], all, t, b);
      SettledByOneMore(all, t, log[n]);
    }
  }

  lemma SettledByOneMore(all: seq<Txn>, t: Txn, p: Txn)
    ensures Settled(all + [t], p) <==> Settled(all, p) || Settles(t, p)
  {
    if Settled(all, p) {
      var c :| c in all && Settles(c, p);
      assert c in all + [t];
    }
    if Settles(t, p) {
      assert t in all + [t];
    }
  }

  /** Settling an outstanding reservation takes exactly its share out. */
  lemma {:induction false} OutstandingDrops(f: Field, log: seq<Txn>, all: seq<Txn>, t: Txn, p: Txn, b: BalanceId)
    requires Distinct(all) && log <= all && p in all && Settles(t, p) && !Settled(all, p)
    ensures Outstanding(f, log, all + [t], b)
            == Outstanding(f, log, all, b) - if p in log then Share(f, p, b) else 0
  {
    if log != [] {
      var n := |log| - 1;
      OutstandingDrops(f, log[..n], all, t, p, b);
      SettledByOneMore(all, t, log[n]);
      assert log == log[..n] + [log[n]];
      assert log[n] == all[n];
      assert log[n].id == p.id ==> log[n] == p;
      assert log[n] == p ==> p !in log[..n];
    }
  }

  lemma OutstandingSnoc(f: Field, log: seq<Txn>, all: seq<Txn>, t: Txn, b: BalanceId)
    ensures Outstanding(f, log + [t], all, b) == Outstanding(f, log, all, b)
            + if t.status == Inflight && !Settled(all, t) then Share(f, t, b) else 0
  {
    assert (log + [t])[..|log|] == log;
  }

  /** A new entry that is no settlement: a reservation adds its share, anything else adds nothing. */
  lemma PlainEntryKeepsExact(s: State, s': State, t: Txn)
    requires Inv(s) && InflightExact(s) && s'.log == s.log + [t] && CanInsert(s.log, t)
    requires !IsSettlement(t)
    requires t.status == Inflight ==> t.parent == None && (t.kind == Topup || t.kind == Withdrawal)
    ensures InflightExact(s')
    ensures forall p | p in s'.log && p.status == Inflight && Settled(s'.log, p) :: p in s.log && Settled(s.log, p)
  {
    forall p | p in s'.log && p.status == Inflight
      ensures Settled(s'.log, p) ==> p in s.log && Settled(s.log, p)
    {
      SettledByOneMore(s.log, t, p);
      if p in s.log {
        assert EntryOk(s.rows.Keys, s.log, p);
      }
    }
    forall f, b | f != Bal ensures Sum(f, s'.log, b) == Outstanding(f, s'.log, s'.log, b) {
      SumSnoc(f, s.log, t, b);
      OutstandingSnoc(f, s.log, s'.log, t, b);
      OutstandingKept(f, s.log, s.log, t, b);
    }
  }

  lemma SettlementKeepsExact(s: State, s': State, p: Txn, t: Txn)
    requires Inv(s) && InflightExact(s) && s'.log == s.log + [t] && CanInsert(s.log, t)
    requires p in s.log && IsSettlement(t) && Settles(t, p) && !Settled(s.log, p)
    ensures InflightExact(s')
  {
    forall f, b | f != Bal ensures Sum(f, s'.log, b) == Outstanding(f, s'.log, s'.log, b) {
      SumSnoc(f, s.log, t, b);
      OutstandingSnoc(f, s.log, s'.log, t, b);
      OutstandingDrops(f, s.log, s.log, t, p, b);
    }
  }

  /** The state invariant of the in-flight argument, relative to the run that led here. */
  ghost predicate Tracked(ops: seq<Op>, s: State) {
    InflightExact(s) && SettledAreReported(ops, s)
  }

  /** What the run reported stays reported as the run goes on. */
  lemma ReportedStays(ops: seq<Op>, op: Op, s: State, s': State, p: Txn)
    requires Reported(ops, s, p) && s.events <= s'.events
    ensures Reported(ops + [op], s', p)
  {
    var x :| x in ops && IsWebhook(x) && ParentRef(x) == p.ref && EventOf(x) in s.events;
    assert x in ops + [op];
  }

  lemma PlainEntryKeepsTracked(ops: seq<Op>, op: Op, s: State, s': State, t: Txn)
    requires Inv(s) && Tracked(ops, s) && s'.log == s.log + [t] && CanInsert(s.log, t) && s.events <= s'.events
    requires !IsSettlement(t)
    requires t.status == Inflight ==> t.parent == None && (t.kind == Topup || t.kind == Withdrawal)
    ensures Tracked(ops + [op], s')
  {
    PlainEntryKeepsExact(s, s', t);
    forall p | p in s'.log && p.status == Inflight && Settled(s'.log, p) ensures Reported(ops + [op], s', p) {
      ReportedStays(ops, op, s, s', p);
    }
  }

  lemma QuietKeepsTracked(ops: seq<Op>, op: Op, s: State, s': State)
    requires Tracked(ops, s) && s'.log == s.log && s.events <= s'.events
    ensures Tracked(ops + [op], s')
  {
    forall p | p in s'.log && p.status == Inflight && Settled(s'.log, p) ensures Reported(ops + [op], s', p) {
      ReportedStays(ops, op, s, s', p);
    }
  }

  /** One event per reference: a delivery that commits is the first for its reservation. */
  lemma FirstReport(ops: seq<Op>, op: Op, s: State)
    requires Tracked(ops, s) && IsWebhook(op) && ApplyWebhook(s, op).Committed?
    requires OneEventPerReference(ops + [op])
    requires Find(s.log, ParentRef(op)).value.status == Inflight
    ensures !Settled(s.log, Find(s.log, ParentRef(op)).value)
  {
    hide Settle;
    hide ParentRef;
    assert forall x | x in ops :: x in ops + [op];
    assert op in ops + [op];
  }

  lemma SettlementKeepsTracked(ops: seq<Op>, op: Op, s: State, s': State, p: Txn, t: Txn)
    requires Inv(s) && Tracked(ops, s) && IsWebhook(op)
    requires s'.log == s.log + [t] && CanInsert(s.log, t) && s'.events == s.events + {EventOf(op)}
    requires p in s.log && p.ref == ParentRef(op) && IsSettlement(t) && Settles(t, p) && !Settled(s.log, p)
    ensures Tracked(ops + [op], s')
  {
    SettlementKeepsExact(s, s', p, t);
    forall u | u in s'.log && u.status == Inflight && Settled(s'.log, u) ensures Reported(ops + [op], s', u) {
      SettledByOneMore(s.log, t, u);
      if Settles(t, u) {
        assert u == p;
        assert op in ops + [op];
      } else {
        ReportedStays(ops, op, s, s', u);
      }
    }
  }

  lemma WebhookKeepsTracked(ops: seq<Op>, op: Op, s: State)
    requires Inv(s) && Tracked(ops, s) && IsWebhook(op) && ApplyWebhook(s, op).Committed?
    requires OneEventPerReference(ops + [op])
    ensures Tracked(ops + [op], ApplyWebhook(s, op).s)
  {
    hide SettledRow;
    hide ApplyWebhook;
    hide Inv;
    hide Tracked;
    hide OneEventPerReference;
    var p := DeliverySettlesItsOwnKind(s, op);
    FirstReport(ops, op, s);
    SettlementKeepsTracked(ops, op, s, Settle(s, op, p), p, SettleTxn(op, p));
  }

  lemma PayKeepsTracked(d: Directory, ops: seq<Op>, op: Op, s: State)
    requires DirectoryOk(d) && Inv(s) && Tracked(ops, s) && op.DoPay? && ApplyPay(d, s, op).Committed?
    ensures Tracked(ops + [op], ApplyPay(d, s, op).s)
  {
    hide Updated;
    var s' := ApplyPay(d, s, op).s;
    var a := d.user[op.user];
    var p, f := PayTxn(op, a, d.merchant[op.merchant]), FeeTxn(op, a);
    var mid := s.(log := s.log + [p]);
    AppendExtends(s, mid, p);
    PlainEntryKeepsTracked(ops, op, s, mid, p);
    assert mid.log + [f] == s.log + [p, f];
    PlainEntryKeepsExact(mid, s', f);
    forall u | u in s'.log && u.status == Inflight && Settled(s'.log, u) ensures Reported(ops + [op], s', u) {
      assert Reported(ops + [op], mid, u);
    }
  }

  lemma ApplyKeepsTracked(d: Directory, ops: seq<Op>, op: Op, s: State)
    requires DirectoryOk(d) && Inv(s) && Tracked(ops, s) && OneEventPerReference(ops + [op])
    ensures Tracked(ops + [op], After(s, Apply(d, s, op)))
  {
    hide Inv;
    hide Tracked;
    hide Updated;
    hide ApplyWebhook;
    hide ApplyPay;
    var s' := After(s, Apply(d, s, op));
    if Apply(d, s, op).RolledBack? {
      QuietKeepsTracked(ops, op, s, s');
    } else {
      match op
      case DoTopup(identity, _, _, _, _) =>
        PlainEntryKeepsTracked(ops, op, s, s', TopupTxn(op, d.identity[identity]));
      case DoWithdraw(identity, _, _, _, _) =>
        PlainEntryKeepsTracked(ops, op, s, s', WithdrawTxn(op, d.identity[identity]));
      case DoTransfer(identity, _, email, _, _, _) =>
        PlainEntryKeepsTracked(ops, op, s, s', TransferTxn(op, d.identity[identity], d.email[email]));
      case DoPay(_, _, _, _, _, _, _, _) => PayKeepsTracked(d, ops, op, s);
      case DoRefund(request, _, _) =>
        PlainEntryKeepsTracked(ops, op, s, s', RefundTxn(op, Find(s.log, s.reqs[request].ref).value));
      case DoRequestRefund(_, _, _) => QuietKeepsTracked(ops, op, s, s');
      case DoMarkFailed(_) => QuietKeepsTracked(ops, op, s, s');
      case _ => WebhookKeepsTracked(ops, op, s);
    }
  }

  lemma {:induction false} RunKeepsTracked(d: Directory, init: State, ops: seq<Op>)
    requires DirectoryOk(d) && Fresh(init) && OneEventPerReference(ops)
    ensures Inv(RunAll(d, init, ops)) && Tracked(ops, RunAll(d, init, ops))
    decreases |ops|
  {
    hide Apply;
    if ops != [] {
      var n := |ops| - 1;
      assert ops == ops[..n] + [ops[n]];
      RunKeepsTracked(d, init, ops[..n]);
      ApplyKeepsInv(d, RunAll(d, init, ops[..n]), ops[n]);
      ApplyKeepsTracked(d, ops[..n], ops[n], RunAll(d, init, ops[..n]));
    }
  }

  lemma {:induction false} OutstandingBounds(f: Field, log: seq<Txn>, all: seq<Txn>, keys: set<BalanceId>, b: BalanceId)
    requires LogOk(keys, all) && Capped(all) && log <= all && f != Bal
    ensures 0 <= Outstanding(f, log, all, b) <= MAX_TOPUP_AMOUNT * |log|
    decreases |log|
  {
    if log != [] {
      var n := |log| - 1;
      OutstandingBounds(f, log[..n], all, keys, b);
      assert log[n] in all && EntryOk(keys, all, log[n]);
    }
  }

  /**
   * Whatever was redelivered, each in-flight column is the sum of that balance's reservations that
   * no delivery has settled; with non-negative amounts it is exact and non-negative as well.
   */
  lemma InflightIsExact(d: Directory, init: State, ops: seq<Op>, f: Field, b: BalanceId)
    requires DirectoryOk(d) && Fresh(init) && OneEventPerReference(ops) && f != Bal && b in init.rows
    ensures var s := RunAll(d, init, ops);
            && b in s.rows
            && Get(f, s.rows[b]) == Int64(Outstanding(f, s.log, s.log, b))
            && (AllNonNegative(ops) && |s.events| <= MAX_EVENTS && |s.log| <= MAX_EVENTS ==>
                  0 <= Get(f, s.rows[b]) == Outstanding(f, s.log, s.log, b))
  {
    hide Wraps;
    hide RunAll;
    BalancesAreViewOfLog(d, init, ops);
    RunKeepsInv(d, init, ops);
    RunKeepsTracked(d, init, ops);
    var s := RunAll(d, init, ops);
    if AllNonNegative(ops) && |s.events| <= MAX_EVENTS {
      RunKeepsSound(d, init, ops);
      OutstandingBounds(f, s.log, s.log, s.rows.Keys, b);
    }
  }

  // ----- A second event for the same reference -----

  /** Settling what is settled already leaves the same reservations outstanding. */
  lemma {:induction false} OutstandingAgain(f: Field, log: seq<Txn>, all: seq<Txn>, t: Txn, b: BalanceId)
    requires forall p | p in log && Settles(t, p) :: Settled(all, p)
    ensures Outstanding(f, log, all + [t], b) == Outstanding(f, log, all, b)
  {
    if log != [] {
      var n := |log| - 1;
      OutstandingAgain(f, log[..n], all, t, b);
      SettledByOneMore(all, t, log[n]);
    }
  }

  /**
   * A delivery never looks whether its reservation was settled before, only at its event id: it
   * leaves the in-flight columns exact if and only if no other event had settled the reservation.
   */
  lemma DeliveryExactIff(s: State, op: Op) returns (p: Txn)
    requires Inv(s) && InflightExact(s) && IsWebhook(op) && ApplyWebhook(s, op).Committed?
    ensures Find(s.log, ParentRef(op)) == Some(p)
    ensures p.amount != 0 ==> (InflightExact(ApplyWebhook(s, op).s) <==> !Settled(s.log, p))
  {
    hide SettledRow;
    hide ApplyWebhook;
    p := DeliverySettlesItsOwnKind(s, op);
    var t := SettleTxn(op, p);
    var s' := Settle(s, op, p);
    if !Settled(s.log, p) {
      SettlementKeepsExact(s, s', p, t);
    } else if p.amount != 0 {
      var f, b := if op.DoTopupWebhook? then Credit else Debit, SettledBalance(op, p);
      SumSnoc(f, s.log, t, b);
      OutstandingSnoc(f, s.log, s'.log, t, b);
      OnlyItsParent(s, p, t);
      OutstandingAgain(f, s.log, s.log, t, b);
      assert Sum(f, s'.log, b) != Outstanding(f, s'.log, s'.log, b);
    }
  }

  lemma OnlyItsParent(s: State, p: Txn, t: Txn)
    requires Inv(s) && p in s.log && t.parent == Some(p.id)
    ensures forall u | u in s.log && Settles(t, u) :: u == p
  {
  }

  /** Any reservation can be settled again by the next event that names it. */
  lemma SecondEventSettlesAgain(s: State, x: Op, y: Op)
    requires Inv(s) && IsWebhook(x) && IsWebhook(y) && ApplyWebhook(s, x).Committed? && ParentRef(x) == ParentRef(y)
    requires y.report == "succeeded" || y.report == "failed"
    requires EventOf(y) !in ApplyWebhook(s, x).s.events
    requires CanInsert(ApplyWebhook(s, x).s.log, SettleTxn(y, Find(s.log, ParentRef(x)).value))
    ensures ApplyWebhook(ApplyWebhook(s, x).s, y).Committed?
    ensures Settled(ApplyWebhook(s, x).s.log, Find(s.log, ParentRef(x)).value)
  {
    hide LogOk;
    hide SettledRow;
    var p := DeliverySettlesItsOwnKind(s, x);
    var s1 := ApplyWebhook(s, x).s;
    FindAppend(s.log, [SettleTxn(x, p)], ParentRef(x));
    assert SettleTxn(x, p) in s1.log && Settles(SettleTxn(x, p), p);
    assert x.DoTopupWebhook? == y.DoTopupWebhook? by {
      assert ParentRef(x)[0] == Prefix(x)[0] && ParentRef(y)[0] == Prefix(y)[0];
    }
  }
}
