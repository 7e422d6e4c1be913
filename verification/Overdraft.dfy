// Amounts may be negative: nothing refuses them. When exactly does an operation keep every balance
// non-negative, and what happens when it does not?
module Overdraft {
  import opened Base
  import opened Ledger
  import opened Serial
  import opened Entries

  predicate NoNegativeBalance(s: State) {
    forall b | b in s.rows :: 0 <= s.rows[b].bal
  }

  /** Stored in a column, x reads as a non-negative number. */
  predicate Lands(x: int) {
    x % 0x1_0000_0000_0000_0000 < 0x8000_0000_0000_0000
  }

  lemma LandsIff(x: int)
    ensures 0 <= Int64(x) <==> Lands(x)
    ensures Fits(x) ==> (Lands(x) <==> 0 <= x)
  {
  }

  /** The sums a committed operation writes into balance columns, before they are truncated. */
  function NewBalances(d: Directory, s: State, op: Op): seq<int>
    requires Apply(d, s, op).Committed?
  {
    match op
    case DoTopup(_, _, _, _, _) => []
    case DoWithdraw(identity, amount, _, _, _) => [s.rows[d.identity[identity]].bal - amount]
    case DoTransfer(identity, amount, email, _, _, _) =>
      [s.rows[d.identity[identity]].bal - amount, s.rows[d.email[email]].bal + amount]
    case DoPay(user, merchant, price, _, _, _, _, _) =>
      [s.rows[d.user[user]].bal - price, s.rows[d.merchant[merchant]].bal + (price - Fee(price)),
       s.rows[REVENUE].bal + Fee(price)]
    case DoTopupWebhook(_, _, _, report, _, _, _) =>
      var p := Find(s.log, ParentRef(op)).value;
      if NewStatus(report) == Applied then [s.rows[p.dst].bal + p.amount] else []
    case DoPayoutWebhook(_, _, _, report, _, _, _) =>
      var p := Find(s.log, ParentRef(op)).value;
      if NewStatus(report) == Void then [s.rows[p.src].bal + p.amount] else []
    case DoRefund(request, _, _) =>
      var t := Find(s.log, s.reqs[request].ref).value;
      [s.rows[t.dst].bal - t.amount, s.rows[t.src].bal + t.amount]
    case DoRequestRefund(_, _, _) => []
    case DoMarkFailed(_) => []
  }

  /** The balances an operation credits can bear the amount it credits, negative as it may be. */
  predicate Covers(d: Directory, s: State, op: Op)
    requires Apply(d, s, op).Committed?
  {
    match op
    case DoTransfer(_, amount, email, _, _, _) => -amount <= s.rows[d.email[email]].bal
    case DoPay(_, merchant, price, _, _, _, _, _) =>
      -(price - Fee(price)) <= s.rows[d.merchant[merchant]].bal && -Fee(price) <= s.rows[REVENUE].bal
    case DoTopupWebhook(_, _, _, report, _, _, _) =>
      var p := Find(s.log, ParentRef(op)).value;
      report == "succeeded" ==> -(p.amount as int) <= s.rows[p.dst].bal
    case DoPayoutWebhook(_, _, _, report, _, _, _) =>
      var p := Find(s.log, ParentRef(op)).value;
      report == "failed" ==> -(p.amount as int) <= s.rows[p.src].bal
    case DoRefund(request, _, _) =>
      var t := Find(s.log, s.reqs[request].ref).value;
      -(t.amount as int) <= s.rows[t.src].bal
    case _ => true
  }

  predicate AllLand(xs: seq<int>) {
    forall x | x in xs :: Lands(x)
  }

  predicate AllFit(xs: seq<int>) {
    forall x | x in xs :: Fits(x)
  }

  /** Two tables that differ in the balances of a sequence of distinct rows. */
  lemma WrittenDecide(s: State, s': State, ids: seq<BalanceId>, xs: seq<int>)
    requires NoNegativeBalance(s) && s'.rows.Keys == s.rows.Keys && |ids| == |xs|
    requires forall i | 0 <= i < |ids| :: ids[i] in s.rows && s'.rows[ids[i]].bal == Int64(xs[i])
    requires forall b | b in s.rows && b !in ids :: s'.rows[b].bal == s.rows[b].bal
    ensures NoNegativeBalance(s') <==> AllLand(xs)
  {
    hide Int64;
    hide Lands;
    forall i | 0 <= i < |xs| ensures 0 <= s'.rows[ids[i]].bal <==> Lands(xs[i]) {
      LandsIff(xs[i]);
    }
    if NoNegativeBalance(s') {
      forall x | x in xs ensures Lands(x) {
        var i :| 0 <= i < |xs| && xs[i] == x;
        assert ids[i] in s'.rows;
      }
    }
    if AllLand(xs) {
      forall b | b in s'.rows ensures 0 <= s'.rows[b].bal {
        if b in ids {
          var i :| 0 <= i < |ids| && ids[i] == b;
          assert xs[i] in xs;
        }
      }
    }
  }

  /** The balances that NewBalances speaks of, in the same order. */
  function Credited(d: Directory, s: State, op: Op): (ids: seq<BalanceId>)
    requires Apply(d, s, op).Committed?
    ensures |ids| == |NewBalances(d, s, op)|
  {
    match op
    case DoTopup(_, _, _, _, _) => []
    case DoWithdraw(identity, _, _, _, _) => [d.identity[identity]]
    case DoTransfer(identity, _, email, _, _, _) => [d.identity[identity], d.email[email]]
    case DoPay(user, merchant, _, _, _, _, _, _) => [d.user[user], d.merchant[merchant], REVENUE]
    case DoTopupWebhook(_, _, _, report, _, _, _) =>
      if NewStatus(report) == Applied then [Find(s.log, ParentRef(op)).value.dst] else []
    case DoPayoutWebhook(_, _, _, report, _, _, _) =>
      if NewStatus(report) == Void then [Find(s.log, ParentRef(op)).value.src] else []
    case DoRefund(request, _, _) =>
      var t := Find(s.log, s.reqs[request].ref).value;
      [t.dst, t.src]
    case DoRequestRefund(_, _, _) => []
    case DoMarkFailed(_) => []
  }

  /** A committed operation writes exactly these sums, and no other balance. */
  predicate WritesThese(s: State, s': State, ids: seq<BalanceId>, xs: seq<int>) {
    && s'.rows.Keys == s.rows.Keys && |ids| == |xs|
    && (forall i | 0 <= i < |ids| :: ids[i] in s.rows && s'.rows[ids[i]].bal == Int64(xs[i]))
    && (forall b | b in s.rows && b !in ids :: s'.rows[b].bal == s.rows[b].bal)
  }

  lemma PayWritesThese(d: Directory, s: State, op: Op)
    requires op.DoPay? && Apply(d, s, op).Committed?
    ensures WritesThese(s, Apply(d, s, op).s, Credited(d, s, op), NewBalances(d, s, op))
  {
    hide Wraps;
    hide Int64;
    hide CanInsert;
    hide Fee;
  }

  lemma WebhookWritesThese(d: Directory, s: State, op: Op)
    requires IsWebhook(op) && Apply(d, s, op).Committed?
    ensures WritesThese(s, Apply(d, s, op).s, Credited(d, s, op), NewBalances(d, s, op))
  {
    hide Wraps;
    hide CanInsert;
    hide SettleTxn;
  }

  lemma RefundWritesThese(d: Directory, s: State, op: Op)
    requires op.DoRefund? && Apply(d, s, op).Committed?
    ensures WritesThese(s, Apply(d, s, op).s, Credited(d, s, op), NewBalances(d, s, op))
  {
    hide Wraps;
    hide Int64;
    hide CanInsert;
  }

  lemma OtherWritesThese(d: Directory, s: State, op: Op)
    requires !op.DoPay? && !IsWebhook(op) && !op.DoRefund? && Apply(d, s, op).Committed?
    ensures WritesThese(s, Apply(d, s, op).s, Credited(d, s, op), NewBalances(d, s, op))
  {
    hide Wraps;
    hide CanInsert;
  }

  /**
   * Every operation, every amount: the balances stay non-negative if and only if each sum that is
   * written lands in the non-negative half of its column.
   */
  lemma SolventIffLands(d: Directory, s: State, op: Op)
    requires Apply(d, s, op).Committed? && NoNegativeBalance(s)
    ensures NoNegativeBalance(Apply(d, s, op).s) <==> AllLand(NewBalances(d, s, op))
  {
    hide Apply;
    hide NewBalances;
    hide Credited;
    hide AllLand;
    hide NoNegativeBalance;
    if op.DoPay? {
      PayWritesThese(d, s, op);
    } else if IsWebhook(op) {
      WebhookWritesThese(d, s, op);
    } else if op.DoRefund? {
      RefundWritesThese(d, s, op);
    } else {
      OtherWritesThese(d, s, op);
    }
    WrittenDecide(s, Apply(d, s, op).s, Credited(d, s, op), NewBalances(d, s, op));
  }

  lemma AllLandIff(xs: seq<int>)
    requires AllFit(xs)
    ensures AllLand(xs) <==> forall i | 0 <= i < |xs| :: 0 <= xs[i]
  {
    forall i | 0 <= i < |xs| ensures Lands(xs[i]) <==> 0 <= xs[i] {
      assert xs[i] in xs;
      LandsIff(xs[i]);
    }
    if AllLand(xs) {
      forall i | 0 <= i < |xs| ensures 0 <= xs[i] {
        assert xs[i] in xs;
      }
    }
  }

  /** The payer is checked, so among sums that fit it is the credited side that decides. */
  lemma LandsIffCovered(d: Directory, s: State, op: Op)
    requires Apply(d, s, op).Committed? && NoNegativeBalance(s) && AllFit(NewBalances(d, s, op))
    ensures AllLand(NewBalances(d, s, op)) <==> Covers(d, s, op)
  {
    hide Lands;
    hide Fits;
    hide AllLand;
    hide AllFit;
    hide Updated;
    hide SettledRow;
    hide CanInsert;
    hide Fee;
    var xs := NewBalances(d, s, op);
    AllLandIff(xs);
    assert AllLand(xs) <==>
        (|xs| > 0 ==> 0 <= xs[0]) && (|xs| > 1 ==> 0 <= xs[1]) && (|xs| > 2 ==> 0 <= xs[2]);
  }

  /**
   * When the written sums fit their columns, an operation keeps every balance non-negative if and
   * only if the balances it credits cover the amount: nobody checks the receiving side.
   */
  lemma ApplySolventIff(d: Directory, s: State, op: Op)
    requires Apply(d, s, op).Committed? && NoNegativeBalance(s) && AllFit(NewBalances(d, s, op))
    ensures NoNegativeBalance(Apply(d, s, op).s) <==> Covers(d, s, op)
  {
    hide Apply;
    hide NewBalances;
    hide AllLand;
    hide AllFit;
    hide Covers;
    hide NoNegativeBalance;
    SolventIffLands(d, s, op);
    LandsIffCovered(d, s, op);
  }

  ghost predicate AlwaysSolvent(d: Directory, s: State, ops: seq<Op>) {
    forall k | 0 <= k <= |ops| :: NoNegativeBalance(RunAll(d, s, ops[..k]))
  }

  predicate EachLands(d: Directory, s: State, ops: seq<Op>) {
    forall k | 0 <= k < |ops| ::
      var mid := RunAll(d, s, ops[..k]);
      Apply(d, mid, ops[k]).Committed? ==> AllLand(NewBalances(d, mid, ops[k]))
  }

  /** What one attempt does to a solvent state. */
  lemma AttemptSolventIff(d: Directory, s: State, op: Op)
    requires NoNegativeBalance(s)
    ensures NoNegativeBalance(After(s, Apply(d, s, op)))
            <==> (Apply(d, s, op).Committed? ==> AllLand(NewBalances(d, s, op)))
  {
    hide Apply;
    hide NewBalances;
    hide AllLand;
    hide NoNegativeBalance;
    if Apply(d, s, op).Committed? {
      SolventIffLands(d, s, op);
    }
  }

  /** Over a whole run: no balance is ever negative if and only if every committed operation passes that test. */
  lemma {:induction false} RunSolventIff(d: Directory, s: State, ops: seq<Op>)
    requires NoNegativeBalance(s)
    ensures AlwaysSolvent(d, s, ops) <==> EachLands(d, s, ops)
    decreases |ops|
  {
    hide Apply;
    hide NewBalances;
    hide AllLand;
    hide NoNegativeBalance;
    hide After;
    if ops != [] {
      var n := |ops| - 1;
      var mid := RunAll(d, s, ops[..n]);
      assert ops[..n + 1] == ops;
      forall k | 0 <= k <= n ensures ops[..n][..k] == ops[..k] {}
      RunSolventIff(d, s, ops[..n]);
      assert AlwaysSolvent(d, s, ops) <==> AlwaysSolvent(d, s, ops[..n]) && NoNegativeBalance(RunAll(d, s, ops));
      assert EachLands(d, s, ops) <==>
          EachLands(d, s, ops[..n]) && (Apply(d, mid, ops[n]).Committed? ==> AllLand(NewBalances(d, mid, ops[n])));
      if AlwaysSolvent(d, s, ops[..n]) {
        assert NoNegativeBalance(RunAll(d, s, ops[..n][..n]));
        AttemptSolventIff(d, mid, ops[n]);
      }
    }
  }

  /** The transfer case on its own: the receiver has to bear the negated amount. */
  lemma TransferSolventIff(d: Directory, s: State, op: Op)
    requires op.DoTransfer? && ApplyTransfer(d, s, op).Committed? && NoNegativeBalance(s)
    ensures NoNegativeBalance(ApplyTransfer(d, s, op).s)
            <==> Lands(s.rows[d.identity[op.identity]].bal - op.amount)
                 && Lands(s.rows[d.email[op.email]].bal + op.amount)
  {
    hide NoNegativeBalance;
    hide Lands;
    hide ApplyTransfer;
    assert Apply(d, s, op) == ApplyTransfer(d, s, op);
    SolventIffLands(d, s, op);
    var xs := NewBalances(d, s, op);
    assert xs[0] in xs && xs[1] in xs;
  }

  /** A committed withdrawal leaves the balance higher than it was if and only if the amount is negative. */
  lemma WithdrawCreditsIff(d: Directory, s: State, op: Op)
    requires op.DoWithdraw? && ApplyWithdraw(d, s, op).Committed?
    requires Fits(s.rows[d.identity[op.identity]].bal - op.amount)
    ensures var b := d.identity[op.identity];
            var s' := ApplyWithdraw(d, s, op).s;
            && s'.rows[b].bal == s.rows[b].bal - op.amount
            && (s.rows[b].bal < s'.rows[b].bal <==> op.amount < 0)
  {
    hide Wraps;
    hide CanInsert;
  }

  // ----- Inputs -----

  /** A database in which nothing has happened yet: two customers beside @World and @Revenue. */
  lemma TwoCustomers() returns (d: Directory, s: State)
    ensures Fresh(s) && DirectoryOk(d) && NoNegativeBalance(s)
    ensures "a" != "b" && d == Directory(map["a" := "a", "b" := "b"], map["a" := "a", "b" := "b"],
                                         map["a" := "a"], map["b" := "b"])
    ensures s.rows.Keys == {"a", "b", WORLD, REVENUE}
    ensures forall b | b in s.rows :: s.rows[b] == Row(0, 0, 0, 0, "")
  {
    var zero := Row(0, 0, 0, 0, "");
    d := Directory(map["a" := "a", "b" := "b"], map["a" := "a", "b" := "b"], map["a" := "a"], map["b" := "b"]);
    s := State(map["a" := zero, "b" := zero, WORLD := zero, REVENUE := zero], [], {}, map[]);
    assert "a"[0] != "b"[0] && WORLD[0] != "a"[0] && WORLD[0] != "b"[0] && REVENUE[0] != "a"[0] && REVENUE[0] != "b"[0];
  }

  /** The first operation of a fresh database, a transfer of -1, commits, and the receiver owes a centime. */
  lemma NegativeTransferOverdraws() returns (d: Directory, s: State, op: Op)
    ensures Fresh(s) && DirectoryOk(d) && NoNegativeBalance(s) && op.DoTransfer? && op.amount == -1
    ensures ApplyTransfer(d, s, op).Committed? && !NoNegativeBalance(ApplyTransfer(d, s, op).s)
  {
    hide Updated;
    hide NoNegativeBalance;
    hide Lands;
    d, s := TwoCustomers();
    op := DoTransfer("a", -1, "b", "r", "u", 0);
    assert MERCHANT_LEDGER != "";
    TransferSolventIff(d, s, op);
    LandsIff(-1);
  }

  /** An empty wallet withdraws -10000, and holds 10000 at once. */
  lemma NegativeWithdrawalCredits() returns (d: Directory, s: State, op: Op)
    ensures Fresh(s) && DirectoryOk(d) && op.DoWithdraw? && op.amount == -10000
    ensures ApplyWithdraw(d, s, op).Committed? && "a" in s.rows && s.rows["a"].bal == 0
    ensures ApplyWithdraw(d, s, op).s.rows["a"].bal == 10000
  {
    hide Updated;
    hide Int64;
    hide NoNegativeBalance;
    d, s := TwoCustomers();
    op := DoWithdraw("a", -10000, "g", "u", 0);
    assert CanInsert(s.log, WithdrawTxn(op, "a"));
    WithdrawCreditsIff(d, s, op);
  }
}
