// What a second refund worker can do: a run of the system that ends with a refund in the log whose
// request reads as failed.
module SecondWorker {
  import opened Base
  import opened Ledger
  import opened Serial
  import opened Entries
  import opened Refunds
  import opened Overdraft
  import opened Protocol
  import opened Commits
  import opened SerialRuns

  const PAYMENT: string := "payment_p"
  const REQUEST: Uuid := "q"

  /** The customers' balances, and how long the ids and references in the log are at most. */
  predicate Now(s: State, a: int, b: int, idLength: nat, refLength: nat) {
    && s.rows.Keys == {"a", "b", WORLD, REVENUE} && s.rows["a"].bal == a && s.rows["b"].bal == b
    && s.rows["a"].ledger == s.rows["b"].ledger == ""
    && forall u | u in s.log :: |u.id| < idLength && |u.ref| < refLength
  }

  /** An entry with a longer id and a longer reference is new. */
  lemma LongerIsNew(s: State, a: int, b: int, t: Txn)
    requires Now(s, a, b, |t.id|, |t.ref|)
    ensures CanInsert(s.log, t)
  {
  }

  /** Money moved between the two customers, an entry t logged, requests as they were. */
  predicate Moved(s: State, s': State, from: BalanceId, to: BalanceId, debit: int, credit: int, more: seq<Txn>)
    requires from in s.rows && to in s.rows
  {
    && s'.rows.Keys == s.rows.Keys && s'.log == s.log + more && s'.reqs == s.reqs
    && s'.rows[from].bal == s.rows[from].bal - debit && s'.rows[to].bal == s.rows[to].bal + credit
    && s'.rows[from].ledger == s.rows[from].ledger && s'.rows[to].ledger == s.rows[to].ledger
  }

  lemma TransferMoves(d: Directory, s: State, op: Op, from: BalanceId, to: BalanceId)
    requires op.DoTransfer? && 0 <= op.amount <= MAX_TRANSFER_AMOUNT
    requires Known(d.identity, op.identity, s.rows) && d.identity[op.identity] == from
    requires Known(d.email, op.email, s.rows) && d.email[op.email] == to && from != to
    requires op.amount <= s.rows[from].bal && s.rows[to].bal < 1000 && s.rows[to].ledger != MERCHANT_LEDGER
    requires CanInsert(s.log, TransferTxn(op, from, to))
    ensures Apply(d, s, op).Committed?
    ensures Moved(s, Apply(d, s, op).s, from, to, op.amount, op.amount, [TransferTxn(op, from, to)])
  {
    hide CanInsert;
    hide TransferTxn;
    hide Wraps;
  }

  lemma PayMoves(d: Directory, s: State, op: Op, from: BalanceId, to: BalanceId)
    requires op.DoPay? && 0 <= op.price
    requires Known(d.user, op.user, s.rows) && d.user[op.user] == from
    requires Known(d.merchant, op.merchant, s.rows) && d.merchant[op.merchant] == to
    requires from != to && from != REVENUE && to != REVENUE && REVENUE in s.rows
    requires op.price <= s.rows[from].bal && s.rows[to].bal == 0
    requires CanInsert(s.log, PayTxn(op, from, to)) && CanInsert(s.log + [PayTxn(op, from, to)], FeeTxn(op, from))
    ensures ApplyPay(d, s, op).Committed?
    ensures Moved(s, ApplyPay(d, s, op).s, from, to, op.price, op.price - Fee(op.price),
                  [PayTxn(op, from, to), FeeTxn(op, from)])
  {
    hide CanInsert;
    hide PayTxn;
    hide FeeTxn;
    hide Wraps;
  }

  const TOPUP: Op := DoTopup("a", 1000, "g", "1", 0)
  const DELIVERY: Op := DoTopupWebhook("s", "e", "g", "succeeded", "22", "cc", 0)
  const PURCHASE: Op := DoPay("a", "b", 1000, "333", "p", "4444", "ff", 0)
  const ASKED: Op := DoRequestRefund(PAYMENT, REQUEST, 0)
  const SPENT: Op := DoTransfer("b", 985, "a", "elevenchars", "55555", 0)
  const FIRST: Op := DoRefund(REQUEST, "666666", 0)
  const RETURNED: Op := DoTransfer("a", 985, "b", "twelve_chars", "666666", 0)
  const SECOND: Op := DoRefund(REQUEST, "7777777", 0)
  const MARKED: Op := DoMarkFailed(REQUEST)

  predicate TheDirectory(d: Directory) {
    "a" != "b" && d == Directory(map["a" := "a", "b" := "b"], map["a" := "a", "b" := "b"],
                                 map["a" := "a"], map["b" := "b"])
  }

  lemma Tops(d: Directory, s: State)
    requires TheDirectory(d) && Now(s, 0, 0, 0, 0) && s.log == [] && s.events == {} && s.reqs == map[]
    ensures Apply(d, s, TOPUP).Committed?
    ensures var s' := Apply(d, s, TOPUP).s;
            && Now(s', 0, 0, 2, 8) && s'.log == [TopupTxn(TOPUP, "a")] && s'.events == {} && s'.reqs == map[]
            && s'.rows["a"].credit == Int64(s.rows["a"].credit + 1000)
  {
    hide Int64;
    assert |"topup_" + "g"| == 7;
  }

  lemma Delivers(d: Directory, s: State)
    requires Now(s, 0, 0, 2, 8) && s.log == [TopupTxn(TOPUP, "a")] && s.events == {} && s.reqs == map[]
    ensures Apply(d, s, DELIVERY).Committed?
    ensures var s' := Apply(d, s, DELIVERY).s;
            && Now(s', 1000, 0, 3, 9) && s'.reqs == map[] && s'.events == {("s", "e")}
            && s'.log == s.log + [SettleTxn(DELIVERY, TopupTxn(TOPUP, "a"))]
            && s'.rows["a"].credit == Int64(s.rows["a"].credit - 1000)
  {
    hide Wraps;
    var p := TopupTxn(TOPUP, "a");
    assert Find(s.log, "topup_" + "g") == Some(p);
    assert |"topup_" + "cc"| == 8;
    LongerIsNew(s, 0, 0, SettleTxn(DELIVERY, p));
  }

  /** The payment, as it is logged. */
  function Paid(): Txn {
    PayTxn(PURCHASE, "a", "b")
  }

  lemma PaymentIsNew(s: State)
    requires Now(s, 1000, 0, 3, 9)
    ensures Paid().ref == PAYMENT && |PAYMENT| == 9 && |FeeTxn(PURCHASE, "a").ref| == 10
    ensures CanInsert(s.log, Paid()) && CanInsert(s.log + [Paid()], FeeTxn(PURCHASE, "a"))
  {
    assert "payment_" + "p" == PAYMENT && |PAYMENT| == 9 && |"revenue_" + "ff"| == 10;
    LongerIsNew(s, 1000, 0, Paid());
  }

  lemma Pays(d: Directory, s: State)
    requires TheDirectory(d) && Now(s, 1000, 0, 3, 9) && s.reqs == map[]
    ensures Apply(d, s, PURCHASE).Committed?
    ensures var s' := Apply(d, s, PURCHASE).s;
            Now(s', 0, 985, 5, 11) && s'.reqs == map[] && Find(s'.log, PAYMENT) == Some(Paid())
  {
    hide ApplyPay;
    hide Find;
    hide CanInsert;
    assert Fee(1000) == 15;
    assert "a" != REVENUE && "b" != REVENUE by { assert REVENUE[0] != "a"[0] && REVENUE[0] != "b"[0]; }
    PaymentIsNew(s);
    PayMoves(d, s, PURCHASE, "a", "b");
    PaymentIsFound(d, s, PURCHASE, []);
    var log := s.log + [Paid(), FeeTxn(PURCHASE, "a")];
    assert log + [] == log;
  }

  /** A payment reference reads as one. */
  lemma ReadsAsPayment()
    ensures IsPayment(PAYMENT)
  {
    hide FirstToken;
    assert PAYMENT == "payment" + "_" + "p";
    FirstTokenAppend("payment", "p");
    WholeToken("payment");
  }

  lemma {:induction false} WholeToken(s: string)
    requires forall i | 0 <= i < |s| :: s[i] != '_'
    ensures FirstToken(s) == s
  {
    if s != [] {
      WholeToken(s[1..]);
      assert s == [s[0]] + s[1..];
    }
  }

  lemma Asks(d: Directory, s: State)
    requires Now(s, 0, 985, 5, 11) && s.reqs == map[] && Find(s.log, PAYMENT) == Some(Paid())
    ensures Apply(d, s, ASKED) == Committed(s.(reqs := map[REQUEST := Request(PAYMENT, Pending, 0)]), Ok)
  {
    hide IsPayment;
    hide Find;
    ReadsAsPayment();
    assert s.reqs[REQUEST := Request(PAYMENT, Pending, 0)] == map[REQUEST := Request(PAYMENT, Pending, 0)];
  }

  /** The request waits, and the payment it names is in the log. */
  predicate RequestWaits(s: State) {
    s.reqs == map[REQUEST := Request(PAYMENT, Pending, 0)] && Find(s.log, PAYMENT) == Some(Paid())
  }

  lemma Spends(d: Directory, s: State)
    requires TheDirectory(d) && Now(s, 0, 985, 5, 11) && RequestWaits(s)
    ensures Apply(d, s, SPENT).Committed?
    ensures var s' := Apply(d, s, SPENT).s; Now(s', 985, 0, 6, 12) && RequestWaits(s')
  {
    hide Apply;
    hide Find;
    hide Paid;
    hide CanInsert;
    var t := TransferTxn(SPENT, "b", "a");
    assert |"elevenchars"| == 11 && MERCHANT_LEDGER != "";
    LongerIsNew(s, 0, 985, t);
    TransferMoves(d, s, SPENT, "b", "a");
    FindAppend(s.log, [t], PAYMENT);
  }

  /** The first worker finds the merchant without funds. */
  lemma FindsNoFunds(d: Directory, s: State)
    requires Now(s, 985, 0, 6, 12) && RequestWaits(s)
    ensures Apply(d, s, FIRST) == RolledBack(MerchantInsufficientBalance)
  {
    hide Find;
    hide Wraps;
    assert Fee(1000) == 15;
  }

  lemma Returns(d: Directory, s: State)
    requires TheDirectory(d) && Now(s, 985, 0, 6, 12) && RequestWaits(s)
    ensures Apply(d, s, RETURNED).Committed?
    ensures var s' := Apply(d, s, RETURNED).s; Now(s', 0, 985, 7, 13) && RequestWaits(s')
  {
    hide Apply;
    hide Find;
    hide Paid;
    hide CanInsert;
    var t := TransferTxn(RETURNED, "a", "b");
    assert |"twelve_chars"| == 12 && MERCHANT_LEDGER != "";
    LongerIsNew(s, 985, 0, t);
    TransferMoves(d, s, RETURNED, "a", "b");
    FindAppend(s.log, [t], PAYMENT);
  }

  /** The second worker refunds what the first could not. */
  lemma RefundsIt(d: Directory, s: State)
    requires Now(s, 0, 985, 7, 13) && RequestWaits(s)
    ensures Apply(d, s, SECOND).Committed?
    ensures var s' := Apply(d, s, SECOND).s;
            && s'.log == s.log + [RefundTxn(SECOND, Paid())]
            && s'.reqs == map[REQUEST := Request(PAYMENT, Completed, 0)]
  {
    hide Find;
    hide Wraps;
    assert Fee(1000) == 15;
    var r := RefundTxn(SECOND, Paid());
    assert |PAYMENT + "_refund"| == 16;
    assert "a" != "b" by { assert "a"[0] != "b"[0]; }
    assert s.reqs[REQUEST := Request(PAYMENT, Completed, 0)] == map[REQUEST := Request(PAYMENT, Completed, 0)];
  }

  lemma Marks(d: Directory, s: State)
    requires s.reqs == map[REQUEST := Request(PAYMENT, Completed, 0)] && RefundTxn(SECOND, Paid()) in s.log
    ensures var s' := After(s, Apply(d, s, MARKED));
            && s'.reqs == map[REQUEST := Request(PAYMENT, Failed, 0)] && RefundTxn(SECOND, Paid()) in s'.log
            && !RefundsRequested(s')
  {
    var s' := After(s, Apply(d, s, MARKED));
    assert s'.reqs == map[REQUEST := Request(PAYMENT, Failed, 0)];
    assert RefundTxn(SECOND, Paid()) in s'.log;
    assert RefundTxn(SECOND, Paid()).kind == Refund;
  }

  /** A plausible run, and where it leads. */
  predicate Reaches(d: Directory, init: State, ops: seq<Op>, s: State) {
    Plausible(d, init, ops) && RunAll(d, init, ops) == s
  }

  lemma Goes(d: Directory, init: State, ops: seq<Op>, s: State, op: Op) returns (s': State)
    requires Reaches(d, init, ops, s) && MayClaim(s, op) && !op.DoMarkFailed?
    ensures s' == After(s, Apply(d, s, op)) && Reaches(d, init, ops + [op], s')
  {
    hide Apply;
    hide RunAll;
    hide MayClaim;
    s' := After(s, Apply(d, s, op));
    PlausibleSnoc(d, init, ops, op);
    RunAllSnoc(d, init, ops, op);
  }

  lemma Starts(d: Directory, init: State)
    ensures Reaches(d, init, [], init)
  {
  }

  /** Up to the request: topped up, paid, refund asked for. */
  lemma Begins(d: Directory, init: State) returns (ops: seq<Op>, s: State)
    requires TheDirectory(d) && Now(init, 0, 0, 0, 0) && init.log == [] && init.events == {} && init.reqs == map[]
    ensures Reaches(d, init, ops, s) && Now(s, 0, 985, 5, 11) && RequestWaits(s)
  {
    hide Apply;
    hide Reaches;
    hide TheDirectory;
    hide Paid;
    hide Find;
    Starts(d, init);
    Tops(d, init);
    s := Goes(d, init, [], init, TOPUP);
    ops := [] + [TOPUP];
    Delivers(d, s);
    s := Goes(d, init, ops, s, DELIVERY);
    ops := ops + [DELIVERY];
    Pays(d, s);
    s := Goes(d, init, ops, s, PURCHASE);
    ops := ops + [PURCHASE];
    Asks(d, s);
    s := Goes(d, init, ops, s, ASKED);
    ops := ops + [ASKED];
  }

  /** Spent, refused to the first worker, returned, refunded by the second. */
  lemma Continues(d: Directory, init: State, before: seq<Op>, waiting: State) returns (ops: seq<Op>, s: State, j: nat)
    requires TheDirectory(d) && Reaches(d, init, before, waiting)
    requires Now(waiting, 0, 985, 5, 11) && RequestWaits(waiting)
    ensures Reaches(d, init, ops, s) && LackedFunds(d, init, ops, j) && ops[j].request == REQUEST
    ensures s.reqs == map[REQUEST := Request(PAYMENT, Completed, 0)] && RefundTxn(SECOND, Paid()) in s.log
  {
    hide Apply;
    hide Plausible;
    hide RunAll;
    hide TheDirectory;
    hide Paid;
    hide Find;
    hide LackedFunds;
    Spends(d, waiting);
    s := Goes(d, init, before, waiting, SPENT);
    ops := before + [SPENT];
    FindsNoFunds(d, s);
    j := |ops|;
    FirstLacks(d, init, ops, s);
    s := Goes(d, init, ops, s, FIRST);
    ops := ops + [FIRST];
    Returns(d, s);
    StillLacks(d, init, ops, RETURNED, j);
    s := Goes(d, init, ops, s, RETURNED);
    ops := ops + [RETURNED];
    RefundsIt(d, s);
    StillLacks(d, init, ops, SECOND, j);
    s := Goes(d, init, ops, s, SECOND);
    ops := ops + [SECOND];
  }

  lemma StillLacks(d: Directory, init: State, ops: seq<Op>, op: Op, j: nat)
    requires LackedFunds(d, init, ops, j)
    ensures j < |ops| && LackedFunds(d, init, ops + [op], j) && (ops + [op])[j] == ops[j]
  {
    hide Apply;
    hide RunAll;
    assert (ops + [op])[..|ops|] == ops;
    LackedInPrefix(d, init, ops + [op], |ops|, j);
  }

  lemma FirstLacks(d: Directory, init: State, ops: seq<Op>, s: State)
    requires RunAll(d, init, ops) == s && Apply(d, s, FIRST) == RolledBack(MerchantInsufficientBalance)
    ensures LackedFunds(d, init, ops + [FIRST], |ops|) && (ops + [FIRST])[|ops|].request == REQUEST
  {
    hide Apply;
    hide RunAll;
    assert (ops + [FIRST])[..|ops|] == ops;
  }

  /**
   * A run of the system from a fresh database: the first worker gives up on a request, a second one
   * refunds it, then the first marks it failed. The refund is in the log, and no completed request is.
   */
  lemma TwoWorkersFallOutOfStep() returns (d: Directory, trace: seq<Sys>)
    ensures DirectoryOk(d) && Run(d, trace) && Fresh(trace[0].init)
    ensures RefundTxn(SECOND, Paid()) in Last(trace).db.log
    ensures Last(trace).db.reqs == map[REQUEST := Request(PAYMENT, Failed, 0)]
    ensures !RefundsRequested(Last(trace).db)
  {
    hide Apply;
    hide Run;
    hide Reaches;
    hide LackedFunds;
    hide RefundsRequested;
    hide AllReplied;
    hide SysOk;
    hide Paid;
    var init;
    d, init := TwoCustomers();
    var ops, s := Begins(d, init);
    var j;
    ops, s, j := Continues(d, init, ops, s);
    Marks(d, s);
    var all := MarkedLast(d, init, ops, s, j);
    trace := SerialRunHappens(d, init, all);
  }

  lemma MarkedLast(d: Directory, init: State, ops: seq<Op>, s: State, j: nat) returns (all: seq<Op>)
    requires Reaches(d, init, ops, s) && LackedFunds(d, init, ops, j) && ops[j].request == REQUEST
    ensures Plausible(d, init, all) && RunAll(d, init, all) == After(s, Apply(d, s, MARKED))
  {
    hide Apply;
    hide RunAll;
    hide Plausible;
    hide LackedFunds;
    all := ops + [MARKED];
    StillLacks(d, init, ops, MARKED, j);
    PlausibleSnoc(d, init, ops, MARKED);
    RunAllSnoc(d, init, ops, MARKED);
  }
}
