// Refunds alternate and never stack, and the request table tells which of them happened.
module Refunds {
  import opened Base
  import opened Ledger
  import opened Serial
  import opened Entries
  import opened View

  // ----- Refund chains -----

  /** References are unique and a refund's is derived from its parent's: one refund per entry. */
  lemma OneRefundEach(keys: set<BalanceId>, log: seq<Txn>, t: Txn, r1: Txn, r2: Txn)
    requires LogOk(keys, log) && t in log && r1 in log && r2 in log
    requires r1.kind == Refund && r1.parent == Some(t.id) && r2.kind == Refund && r2.parent == Some(t.id)
    ensures r1 == r2
  {
    assert EntryOk(keys, log, r1) && EntryOk(keys, log, r2);
  }

  /** The refund of t, if it was refunded; a caller-chosen reference of that form is no refund. */
  function RefundOf(log: seq<Txn>, t: Txn): (r: Option<Txn>)
    ensures r.Some? ==> r.value in log && |t.ref| < |r.value.ref|
  {
    var r := Find(log, t.ref + "_refund");
    if r.Some? && r.value.kind == Refund then r else None
  }

  lemma RefundOfReverses(keys: set<BalanceId>, log: seq<Txn>, t: Txn)
    requires LogOk(keys, log) && t in log && RefundOf(log, t).Some?
    ensures Reverses(RefundOf(log, t).value, t)
  {
    var r := RefundOf(log, t).value;
    assert EntryOk(keys, log, r);
    var p :| p in log && Reverses(r, p);
    assert p.ref == (p.ref + "_refund")[..|p.ref|] == t.ref;
  }

  function LongestRef(log: seq<Txn>): (n: nat)
    ensures forall t | t in log :: |t.ref| <= n
  {
    if log == [] then 0
    else
      var rest := LongestRef(log[1..]);
      if |log[0].ref| > rest then |log[0].ref| else rest
  }

  /** t's refund, the refund of that, and so on. */
  function Chain(log: seq<Txn>, t: Txn): seq<Txn>
    decreases LongestRef(log) - |t.ref|
  {
    match RefundOf(log, t)
    case None => []
    case Some(r) => [r] + Chain(log, r)
  }

  /** What a sequence of entries does to a balance. */
  function Effect(entries: seq<Txn>, b: BalanceId): int {
    if entries == [] then 0 else Share(Bal, entries[0], b) + Effect(entries[1..], b)
  }

  /** However long the chain, it returns the root's amount exactly once or not at all. */
  lemma {:induction false} ChainAlternates(keys: set<BalanceId>, log: seq<Txn>, t: Txn, b: BalanceId)
    requires LogOk(keys, log) && t in log && IsMove(t.kind)
    ensures Effect(Chain(log, t), b) == if |Chain(log, t)| % 2 == 1 then -Share(Bal, t, b) else 0
    decreases LongestRef(log) - |t.ref|
  {
    match RefundOf(log, t)
    case None =>
    case Some(r) =>
      RefundOfReverses(keys, log, t);
      ChainAlternates(keys, log, r, b);
      assert Chain(log, t)[1..] == Chain(log, r);
      assert Share(Bal, r, b) == -Share(Bal, t, b);
  }

  /** The chain holds every refund that descends from t: the refund of any of its members is in it. */
  lemma {:induction false} ChainIsClosed(keys: set<BalanceId>, log: seq<Txn>, t: Txn, p: Txn, r: Txn)
    requires LogOk(keys, log) && t in log && (p == t || p in Chain(log, t))
    requires r in log && r.kind == Refund && r.parent == Some(p.id)
    ensures r in Chain(log, t)
    decreases LongestRef(log) - |t.ref|
  {
    if p == t {
      assert EntryOk(keys, log, r);
    } else {
      var next := RefundOf(log, t).value;
      assert p == next || p in Chain(log, next);
      ChainIsClosed(keys, log, next, p, r);
    }
  }

  // ----- Refund requests -----

  predicate HasRefund(log: seq<Txn>, ref: string) {
    exists r | r in log :: r.kind == Refund && r.ref == ref + "_refund"
  }

  /** What holds with any number of workers. */
  predicate RequestsSound(s: State) {
    && (forall q | q in s.reqs :: s.reqs[q].status != Processing)
    && (forall q, u | q in s.reqs && u in s.reqs && q != u && s.reqs[q].ref == s.reqs[u].ref ::
          !(s.reqs[q].status == Pending && s.reqs[u].status == Pending)
          && !(s.reqs[q].status == Completed && s.reqs[u].status == Completed))
    && (forall q | q in s.reqs && s.reqs[q].status == Completed :: HasRefund(s.log, s.reqs[q].ref))
  }

  /** Every refund entry has its completed request. */
  predicate RefundsRequested(s: State) {
    forall r | r in s.log && r.kind == Refund ::
      exists q | q in s.reqs :: s.reqs[q].status == Completed && r.ref == s.reqs[q].ref + "_refund"
  }

  lemma HasRefundAppend(log: seq<Txn>, more: seq<Txn>, ref: string)
    requires HasRefund(log, ref)
    ensures HasRefund(log + more, ref)
  {
    var r :| r in log && r.kind == Refund && r.ref == ref + "_refund";
    assert r in log + more;
  }

  lemma LogGrowthKeepsRequests(s: State, s': State)
    requires RequestsSound(s) && s.log <= s'.log && s'.reqs == s.reqs
    ensures RequestsSound(s')
  {
    forall q | q in s.reqs && s.reqs[q].status == Completed ensures HasRefund(s'.log, s.reqs[q].ref) {
      HasRefundAppend(s.log, s'.log[|s.log|..], s.reqs[q].ref);
      assert s'.log == s.log + s'.log[|s.log|..];
    }
  }

  lemma RefundKeepsRequests(s: State, op: Op)
    requires Inv(s) && RequestsSound(s) && op.DoRefund? && ApplyRefund(s, op).Committed?
    ensures RequestsSound(ApplyRefund(s, op).s)
  {
    hide Updated;
    hide Inv;
    var s' := ApplyRefund(s, op).s;
    var t := Find(s.log, s.reqs[op.request].ref).value;
    var r := RefundTxn(op, t);
    assert r in s'.log;
    assert !HasRefund(s.log, t.ref);
    forall q | q in s'.reqs && s'.reqs[q].status == Completed ensures HasRefund(s'.log, s'.reqs[q].ref) {
      if q != op.request {
        HasRefundAppend(s.log, [r], s.reqs[q].ref);
      }
    }
  }

  lemma ApplyKeepsRequests(d: Directory, s: State, op: Op)
    requires DirectoryOk(d) && Inv(s) && RequestsSound(s)
    ensures RequestsSound(After(s, Apply(d, s, op)))
  {
    hide Updated;
    hide Inv;
    hide RequestsSound;
    ApplyKeepsInv(d, s, op);
    var s' := After(s, Apply(d, s, op));
    if op.DoRefund? && Apply(d, s, op).Committed? {
      RefundKeepsRequests(s, op);
    } else if op.DoRequestRefund? || op.DoMarkFailed? {
      RequestOpKeepsRequests(s, op);
    } else {
      LogGrowthKeepsRequests(s, s');
    }
  }

  lemma RequestOpKeepsRequests(s: State, op: Op)
    requires RequestsSound(s) && (op.DoRequestRefund? || op.DoMarkFailed?)
    ensures RequestsSound(After(s, if op.DoMarkFailed? then ApplyMarkFailed(s, op) else ApplyRequestRefund(s, op)))
  {
  }

  /** Any number of workers: requests keep their discipline in every reachable database. */
  lemma {:induction false} RunKeepsRequests(d: Directory, init: State, ops: seq<Op>)
    requires DirectoryOk(d) && Fresh(init)
    ensures RequestsSound(RunAll(d, init, ops))
    decreases |ops|
  {
    hide Apply;
    if ops != [] {
      var n := |ops| - 1;
      RunKeepsRequests(d, init, ops[..n]);
      RunKeepsInv(d, init, ops[..n]);
      ApplyKeepsRequests(d, RunAll(d, init, ops[..n]), ops[n]);
    }
  }

  /** A single worker marks a request failed while the request still waits. */
  predicate MarksWaiting(d: Directory, s: State, ops: seq<Op>) {
    forall k | 0 <= k < |ops| && ops[k].DoMarkFailed? ::
      var mid := RunAll(d, s, ops[..k]);
      ops[k].request in mid.reqs ==> mid.reqs[ops[k].request].status != Completed
  }

  /** Overwriting a completed request orphans its refund entry. */
  lemma MarkFailedOrphans(s: State, op: Op, r: Txn)
    requires RequestsSound(s) && op.DoMarkFailed? && op.request in s.reqs && s.reqs[op.request].status == Completed
    requires r in s.log && r.kind == Refund && r.ref == s.reqs[op.request].ref + "_refund"
    ensures !RefundsRequested(ApplyMarkFailed(s, op).s)
  {
    var s' := ApplyMarkFailed(s, op).s;
    forall q | q in s'.reqs && s'.reqs[q].status == Completed ensures r.ref != s'.reqs[q].ref + "_refund" {
      SuffixInjective(s'.reqs[q].ref, s.reqs[op.request].ref);
    }
  }

  lemma MarkFailedSpares(s: State, op: Op)
    requires RefundsRequested(s) && op.DoMarkFailed?
    requires op.request in s.reqs ==> s.reqs[op.request].status != Completed
    ensures RefundsRequested(ApplyMarkFailed(s, op).s)
  {
    var s' := ApplyMarkFailed(s, op).s;
    forall r | r in s.log && r.kind == Refund
      ensures exists q | q in s'.reqs :: s'.reqs[q].status == Completed && r.ref == s'.reqs[q].ref + "_refund"
    {
      var q :| q in s.reqs && s.reqs[q].status == Completed && r.ref == s.reqs[q].ref + "_refund";
      assert q in s'.reqs && s'.reqs[q] == s.reqs[q];
    }
  }

  /**
   * Overwriting a status keeps refunds and completed requests in step exactly when the request
   * was not completed, which a second worker can make it between rollback and mark.
   */
  lemma MarkFailedKeepsStep(s: State, op: Op)
    requires RequestsSound(s) && RefundsRequested(s) && op.DoMarkFailed?
    ensures RefundsRequested(ApplyMarkFailed(s, op).s)
            <==> !(op.request in s.reqs && s.reqs[op.request].status == Completed)
  {
    hide RefundsRequested;
    if op.request in s.reqs && s.reqs[op.request].status == Completed {
      var r :| r in s.log && r.kind == Refund && r.ref == s.reqs[op.request].ref + "_refund";
      MarkFailedOrphans(s, op, r);
    } else {
      MarkFailedSpares(s, op);
    }
  }

  lemma SuffixInjective(a: string, b: string)
    ensures a + "_refund" == b + "_refund" ==> a == b
  {
    if a + "_refund" == b + "_refund" {
      assert |a| == |b|;
      assert a == (a + "_refund")[..|a|] == b;
    }
  }

  lemma RefundKeepsStep(s: State, op: Op)
    requires RefundsRequested(s) && op.DoRefund? && ApplyRefund(s, op).Committed?
    ensures RefundsRequested(ApplyRefund(s, op).s)
  {
    hide Updated;
    var s' := ApplyRefund(s, op).s;
    forall r | r in s'.log && r.kind == Refund
      ensures exists q | q in s'.reqs :: s'.reqs[q].status == Completed && r.ref == s'.reqs[q].ref + "_refund"
    {
      if r in s.log {
        var q :| q in s.reqs && s.reqs[q].status == Completed && r.ref == s.reqs[q].ref + "_refund";
        assert q in s'.reqs && s'.reqs[q].status == Completed;
      } else {
        assert s'.reqs[op.request].status == Completed;
      }
    }
  }

  lemma OtherKeepsStep(d: Directory, s: State, op: Op)
    requires Inv(s) && RefundsRequested(s) && !op.DoRefund? && !op.DoMarkFailed?
    ensures RefundsRequested(After(s, Apply(d, s, op)))
  {
    hide Updated;
    hide Settle;
    var s' := After(s, Apply(d, s, op));
    var more := NonRefundEntries(d, s, op);
    forall r | r in s'.log && r.kind == Refund
      ensures exists q | q in s'.reqs :: s'.reqs[q].status == Completed && r.ref == s'.reqs[q].ref + "_refund"
    {
      var q :| q in s.reqs && s.reqs[q].status == Completed && r.ref == s.reqs[q].ref + "_refund";
      assert q in s'.reqs && s'.reqs[q] == s.reqs[q];
    }
  }

  lemma NonRefundEntries(d: Directory, s: State, op: Op) returns (more: seq<Txn>)
    requires Inv(s) && !op.DoRefund? && !op.DoMarkFailed?
    ensures var s' := After(s, Apply(d, s, op));
            && s'.log == s.log + more && (forall t | t in more :: t.kind != Refund)
            && forall q | q in s.reqs :: q in s'.reqs && s'.reqs[q] == s.reqs[q]
  {
    hide Updated;
    hide SettledRow;
    hide Inv;
    more := [];
    if Apply(d, s, op).Committed? {
      match op
      case DoTopup(identity, _, _, _, _) => more := [TopupTxn(op, d.identity[identity])];
      case DoWithdraw(identity, _, _, _, _) => more := [WithdrawTxn(op, d.identity[identity])];
      case DoTransfer(identity, _, email, _, _, _) => more := [TransferTxn(op, d.identity[identity], d.email[email])];
      case DoPay(user, merchant, _, _, _, _, _, _) =>
        more := [PayTxn(op, d.user[user], d.merchant[merchant]), FeeTxn(op, d.user[user])];
      case DoRequestRefund(_, _, _) =>
      case DoTopupWebhook(_, _, _, _, _, _, _) =>
        var p := DeliverySettlesItsOwnKind(s, op);
        more := [SettleTxn(op, p)];
      case DoPayoutWebhook(_, _, _, _, _, _, _) =>
        var p := DeliverySettlesItsOwnKind(s, op);
        more := [SettleTxn(op, p)];
    }
  }

  /** With a single worker, refund entries and completed requests correspond one to one. */
  lemma {:induction false} SingleWorkerBijection(d: Directory, init: State, ops: seq<Op>)
    requires DirectoryOk(d) && Fresh(init) && MarksWaiting(d, init, ops)
    ensures RequestsSound(RunAll(d, init, ops)) && RefundsRequested(RunAll(d, init, ops))
    decreases |ops|
  {
    hide Apply;
    hide RequestsSound;
    RunKeepsRequests(d, init, ops);
    if ops != [] {
      var n := |ops| - 1;
      var mid := RunAll(d, init, ops[..n]);
      forall k | 0 <= k < n ensures ops[..n][..k] == ops[..k] {}
      SingleWorkerBijection(d, init, ops[..n]);
      RunKeepsInv(d, init, ops[..n]);
      StepInStep(d, mid, ops[n]);
    }
  }

  lemma StepInStep(d: Directory, s: State, op: Op)
    requires Inv(s) && RequestsSound(s) && RefundsRequested(s)
    requires op.DoMarkFailed? && op.request in s.reqs ==> s.reqs[op.request].status != Completed
    ensures RefundsRequested(After(s, Apply(d, s, op)))
  {
    hide Inv;
    hide RequestsSound;
    hide RefundsRequested;
    if op.DoMarkFailed? {
      MarkFailedKeepsStep(s, op);
    } else if op.DoRefund? {
      if ApplyRefund(s, op).Committed? { RefundKeepsStep(s, op); }
    } else {
      OtherKeepsStep(d, s, op);
    }
  }

  /** A completed request stays completed unless it is marked failed. */
  lemma CompletedStays(d: Directory, s: State, op: Op, q: Uuid)
    requires Inv(s) && q in s.reqs && s.reqs[q].status == Completed && !(op.DoMarkFailed? && op.request == q)
    ensures var s' := After(s, Apply(d, s, op)); q in s'.reqs && s'.reqs[q].status == Completed
  {
    hide Inv;
    hide Updated;
    hide CanInsert;
    hide Find;
    if !op.DoRefund? && !op.DoMarkFailed? {
      hide Apply;
      var _ := NonRefundEntries(d, s, op);
    }
  }

  lemma RefundCompletes(d: Directory, s: State, op: Op)
    requires op.DoRefund? && Apply(d, s, op).Committed?
    ensures var s' := Apply(d, s, op).s; op.request in s'.reqs && s'.reqs[op.request].status == Completed
  {
    hide Updated;
    hide CanInsert;
    hide Find;
  }

  /** Once the refund of a request committed, a single worker leaves it completed for good. */
  lemma {:induction false} RefundedStaysCompleted(d: Directory, init: State, ops: seq<Op>, k: nat)
    requires DirectoryOk(d) && Fresh(init) && MarksWaiting(d, init, ops) && k < |ops|
    requires ops[k].DoRefund? && Apply(d, RunAll(d, init, ops[..k]), ops[k]).Committed?
    ensures var s := RunAll(d, init, ops);
            ops[k].request in s.reqs && s.reqs[ops[k].request].status == Completed
    decreases |ops|
  {
    hide Inv;
    hide Apply;
    var n := |ops| - 1;
    var mid := RunAll(d, init, ops[..n]);
    if k == n {
      RefundCompletes(d, mid, ops[n]);
    } else {
      forall j | 0 <= j < n ensures ops[..n][..j] == ops[..j] {}
      RefundedStaysCompleted(d, init, ops[..n], k);
      RunKeepsInv(d, init, ops[..n]);
      CompletedStays(d, mid, ops[n], ops[k].request);
    }
  }

  /** With a single worker a failed request moved no money: every attempt to refund it was rolled back. */
  lemma FailedMovedNothing(d: Directory, init: State, ops: seq<Op>, q: Uuid, k: nat)
    requires DirectoryOk(d) && Fresh(init) && MarksWaiting(d, init, ops)
    requires q in RunAll(d, init, ops).reqs && RunAll(d, init, ops).reqs[q].status == Failed
    requires k < |ops| && ops[k].DoRefund? && ops[k].request == q
    ensures Apply(d, RunAll(d, init, ops[..k]), ops[k]).RolledBack?
  {
    hide Apply;
    hide RunAll;
    hide MarksWaiting;
    if Apply(d, RunAll(d, init, ops[..k]), ops[k]).Committed? {
      RefundedStaysCompleted(d, init, ops, k);
    }
  }

  // ----- Payment, then refund -----

  /** What a refunded payment leaves behind: the fee moved from the customer to @Revenue. */
  function FeeOnly(b: BalanceId, customer: BalanceId, fee: int): int {
    (if b == customer then -fee else 0) + (if b == REVENUE then fee else 0)
  }

  lemma PaymentIsFound(d: Directory, s: State, pay: Op, more: seq<Txn>)
    requires pay.DoPay? && ApplyPay(d, s, pay).Committed?
    ensures pay.user in d.user && pay.merchant in d.merchant
    ensures var a, m := d.user[pay.user], d.merchant[pay.merchant];
            var p, f := PayTxn(pay, a, m), FeeTxn(pay, a);
            var s1 := ApplyPay(d, s, pay).s;
            && a != m && a != REVENUE && m != REVENUE
            && s1.log == s.log + [p, f] && Find(s1.log + more, p.ref) == Some(p)
  {
    hide Updated;
    var a := d.user[pay.user];
    var p, f := PayTxn(pay, a, d.merchant[pay.merchant]), FeeTxn(pay, a);
    var log := s.log + [p, f];
    assert log[|s.log|] == p;
    assert Find(log, p.ref).value in log;
    FindAppend(log, more, p.ref);
  }

  lemma RefundIsLogged(s: State, refund: Op, t: Txn)
    requires refund.DoRefund? && ApplyRefund(s, refund).Committed?
    requires Find(s.log, s.reqs[refund.request].ref) == Some(t)
    ensures ApplyRefund(s, refund).s.log == s.log + [RefundTxn(refund, t)]
  {
    hide Updated;
  }

  lemma RoundTripSum(log: seq<Txn>, p: Txn, f: Txn, more: seq<Txn>, r: Txn, b: BalanceId)
    requires p.kind == Payment && f.kind == PlatformRevenue && r.kind == Refund
    requires r.amount == p.amount && r.src == p.dst && r.dst == p.src && f.src == p.src && f.dst == REVENUE
    ensures Sum(Bal, log + [p, f] + more + [r], b)
            == Sum(Bal, log, b) + Sum(Bal, more, b) + FeeOnly(b, p.src, f.amount)
  {
    SumConcat(Bal, log + [p, f] + more, [r], b);
    SumConcat(Bal, log + [p, f], more, b);
    SumConcat(Bal, log, [p, f], b);
    SumTwo(Bal, p, f, b);
    SumOne(Bal, r, b);
  }

  /**
   * Pay, anything else in between, then the refund of that payment: every balance ends where the
   * operations in between alone would have taken it, except that the customer is short by exactly
   * the fee and @Revenue up by it.
   */
  lemma PaymentRefundRoundTrip(d: Directory, s: State, pay: Op, between: seq<Op>, refund: Op, b: BalanceId)
      returns (more: seq<Txn>)
    requires DirectoryOk(d) && Inv(s) && InView(s) && b in s.rows
    requires pay.DoPay? && ApplyPay(d, s, pay).Committed? && refund.DoRefund?
    requires var s2 := RunAll(d, ApplyPay(d, s, pay).s, between);
             && ApplyRefund(s2, refund).Committed?
             && s2.reqs[refund.request].ref == "payment_" + pay.payRef
    ensures var s1 := ApplyPay(d, s, pay).s;
            var s2 := RunAll(d, s1, between);
            var s3 := ApplyRefund(s2, refund).s;
            && s2.log == s1.log + more && b in s3.rows
            && s3.rows[b].bal == Int64(s.rows[b].bal + Sum(Bal, more, b) + FeeOnly(b, d.user[pay.user], Fee(pay.price)))
  {
    hide Wraps;
    hide Apply;
    hide ApplyPay;
    hide ApplyRefund;
    var s1 := ApplyPay(d, s, pay).s;
    var s2 := RunAll(d, s1, between);
    more := RoundTripLog(d, s, pay, between, refund);
    var s3 := ApplyRefund(s2, refund).s;
    RoundTripView(d, s, pay, between, refund);
    var a := d.user[pay.user];
    var p, f := PayTxn(pay, a, d.merchant[pay.merchant]), FeeTxn(pay, a);
    var r := RefundTxn(refund, p);
    FeeSplit(pay.price);
    RoundTripSum(s.log, p, f, more, r, b);
    hide Inv;
    hide Fee;
    assert Get(Bal, s.rows[b]) == Int64(Sum(Bal, s.log, b));
    assert Get(Bal, s3.rows[b]) == Int64(Sum(Bal, s3.log, b));
    Int64Add(Sum(Bal, s.log, b), Sum(Bal, more, b) + FeeOnly(b, a, Fee(pay.price)));
  }

  /** The log of such a run. */
  lemma RoundTripLog(d: Directory, s: State, pay: Op, between: seq<Op>, refund: Op) returns (more: seq<Txn>)
    requires DirectoryOk(d) && Inv(s)
    requires pay.DoPay? && ApplyPay(d, s, pay).Committed? && refund.DoRefund?
    requires var s2 := RunAll(d, ApplyPay(d, s, pay).s, between);
             && ApplyRefund(s2, refund).Committed?
             && s2.reqs[refund.request].ref == "payment_" + pay.payRef
    ensures pay.user in d.user && pay.merchant in d.merchant
    ensures var a, m := d.user[pay.user], d.merchant[pay.merchant];
            var p, f := PayTxn(pay, a, m), FeeTxn(pay, a);
            var s2 := RunAll(d, ApplyPay(d, s, pay).s, between);
            && a != m && a != REVENUE && m != REVENUE
            && s2.log == ApplyPay(d, s, pay).s.log + more
            && ApplyRefund(s2, refund).s.log == s.log + [p, f] + more + [RefundTxn(refund, p)]
  {
    hide RunAll;
    hide ApplyPay;
    hide ApplyRefund;
    hide Inv;
    var s1 := ApplyPay(d, s, pay).s;
    PayKeepsInv(d, s, pay);
    RunKeepsInv(d, s1, between);
    var s2 := RunAll(d, s1, between);
    more := s2.log[|s1.log|..];
    assert s2.log == s1.log + more;
    PaymentIsFound(d, s, pay, more);
    RefundIsLogged(s2, refund, PayTxn(pay, d.user[pay.user], d.merchant[pay.merchant]));
  }

  lemma RoundTripView(d: Directory, s: State, pay: Op, between: seq<Op>, refund: Op)
    requires DirectoryOk(d) && Inv(s) && InView(s)
    requires pay.DoPay? && ApplyPay(d, s, pay).Committed? && refund.DoRefund?
    requires ApplyRefund(RunAll(d, ApplyPay(d, s, pay).s, between), refund).Committed?
    ensures var s3 := ApplyRefund(RunAll(d, ApplyPay(d, s, pay).s, between), refund).s;
            InView(s3) && s3.rows.Keys == s.rows.Keys
  {
    hide Updated;
    hide ApplyPay;
    hide ApplyRefund;
    hide InView;
    hide Inv;
    assert Apply(d, s, pay) == ApplyPay(d, s, pay);
    var s1 := ApplyPay(d, s, pay).s;
    ApplyKeepsInv(d, s, pay);
    ApplyKeepsView(d, s, pay);
    RunKeepsInv(d, s1, between);
    RunKeepsView(d, s1, between);
    var s2 := RunAll(d, s1, between);
    assert Apply(d, s2, refund) == ApplyRefund(s2, refund);
    ApplyKeepsInv(d, s2, refund);
    ApplyKeepsView(d, s2, refund);
  }
}
