// What serializability buys: conflicts have a cause, and every property of the serial runs holds in
// every state of every interleaving.
module Interleavings {
  import opened Base
  import opened Ledger
  import opened Serial
  import opened Versions
  import opened Entries
  import opened View
  import opened Conservation
  import opened Webhooks
  import opened Deliveries
  import opened Solvency
  import opened Inflight
  import opened Refunds
  import opened Revenue
  import opened Protocol
  import opened Commits
  import opened Serializability

  // ----- Reads -----

  lemma WritesBeforeReads(d: Directory, op: Op, obs: seq<Obs>, k: nat)
    requires k <= |obs| && k <= 4
    requires forall j | 0 <= j < k :: !StmtAt(d, op, obs, j).UpdateRow?
    ensures WritesAt(d, op, obs, k).rows == map[]
    ensures (forall j | 0 <= j < k :: !StmtAt(d, op, obs, j).InsertTxn?) ==> WritesAt(d, op, obs, k).log == []
  {
    hide StmtAt;
    if k > 0 {
      WritesBeforeReads(d, op, obs, k - 1);
    }
  }

  /** No operation reads a table it has written: reads inside and outside the transaction agree. */
  lemma ReadsComeFirst(d: Directory, op: Op, obs: seq<Obs>)
    ensures var stmt := StmtAt(d, op, obs, |obs|);
            var w := WritesAt(d, op, obs, |obs|);
            && (stmt.ReadBalance? || stmt.CheckBalance? ==> w.rows == map[])
            && (stmt.ReadTxn? ==> w.log == [])
  {
    hide Updated;
    hide SettledRow;
    hide SettleTxn;
    hide RefundTxn;
    hide ParentRef;
    hide IsPayment;
    hide Fee;
    hide WritesAt;
    var stmt := StmtAt(d, op, obs, |obs|);
    if stmt.ReadBalance? || stmt.CheckBalance? || stmt.ReadTxn? {
      WritesBeforeReads(d, op, obs, |obs|);
    }
  }

  // ----- Conflicts -----

  /** The j-th committed operation wrote balance id. */
  predicate WroteAt(d: Directory, s: Sys, j: nat, id: BalanceId)
    requires j < |s.history|
  {
    var mid := RunAll(d, s.init, s.history[..j]);
    Apply(d, mid, s.history[j]).Committed? && id in WriteSet(d, mid, s.history[j])
  }

  /** A committed write since position i shows in the version. */
  lemma WriterMakesNewer(d: Directory, s: Sys, i: nat, j: nat, id: BalanceId)
    requires i <= j < |s.history| && id in s.init.rows && WroteAt(d, s, j, id)
    ensures id in RunAll(d, s.init, s.history[..i]).rows && id in RunAll(d, s.init, s.history).rows
    ensures RunAll(d, s.init, s.history[..i]).rows[id].version < RunAll(d, s.init, s.history).rows[id].version
  {
    hide Apply;
    var h, n := s.history, |s.history|;
    assert h[..j][..i] == h[..i] && h[..j + 1] == h[..j] + [h[j]];
    VersionDeterminesRow(d, s.init, h[..j], i, id);
    RunAllSnoc(d, s.init, h[..j], h[j]);
    ApplyVersions(d, RunAll(d, s.init, h[..j]), h[j], id);
    VersionDeterminesRow(d, s.init, h, j + 1, id);
  }

  /**
   * An update fails exactly when its client has already written that balance, or when somebody
   * else's operation has committed a write of it since the client read it.
   */
  lemma ConflictHasACause(d: Directory, s: Sys, op: Op, obs: seq<Obs>) returns (at: nat)
    requires Serialized(d, s) && ClientOk(d, s, Running(op, obs)) && StmtAt(d, op, obs, |obs|).UpdateRow?
    ensures at <= |s.history|
    ensures exists k | 0 <= k < |obs| ::
              StmtAt(d, op, obs, k) == ReadBalance(StmtAt(d, op, obs, |obs|).id) && obs[k].GotRow? && obs[k].at == at
    ensures var stmt := StmtAt(d, op, obs, |obs|);
            var w := WritesAt(d, op, obs, |obs|);
            !Succeeds(s.db, w, stmt) <==>
              stmt.id in w.rows || exists j | at <= j < |s.history| :: WroteAt(d, s, j, stmt.id)
  {
    hide StmtAt;
    hide WritesAt;
    hide WritesOk;
    hide Apply;
    hide WriteSet;
    hide AllCommit;
    var stmt := StmtAt(d, op, obs, |obs|);
    var w := WritesAt(d, op, obs, |obs|);
    var id := stmt.id;
    var k := UpdateUsesRead(d, op, obs, |obs|);
    assert ObsOk(d, s, op, obs, k);
    at := obs[k].at;
    RunKeepsKeys(d, s.init, s.history);
    if id in w.rows {
      SecondUpdateFails(d, s, op, obs);
    } else if Succeeds(s.db, w, stmt) {
      if j :| at <= j < |s.history| && WroteAt(d, s, j, id) {
        WriterMakesNewer(d, s, at, j, id);
      }
    } else {
      var j := NewerVersionHasAWriter(d, s.init, s.history, at, id);
      assert WroteAt(d, s, j, id);
    }
  }

  /** ErrOptimisticLock comes from a versioned update and from nothing else. */
  lemma LockErrorsAreUpdates(d: Directory, op: Op, obs: seq<Obs>)
    requires Failure(StmtAt(d, op, obs, |obs|)) == OptimisticLock
    ensures StmtAt(d, op, obs, |obs|).UpdateRow?
  {
    hide Updated;
    hide SettledRow;
    hide SettleTxn;
    hide RefundTxn;
    hide ParentRef;
    hide IsPayment;
    hide Fee;
  }

  /**
   * In every run, an operation that returns ErrOptimisticLock had already written that balance
   * itself, or lost it to an operation that committed between its read and its update.
   */
  lemma NoSpuriousConflict(d: Directory, trace: seq<Sys>, k: nat, i: nat) returns (id: BalanceId, at: nat)
    requires Run(d, trace) && k + 1 < |trace| && Executes(d, trace[k], trace[k + 1], i)
    requires !StmtAt(d, trace[k].clients[i].op, trace[k].clients[i].obs, |trace[k].clients[i].obs|).Commit?
    requires trace[k + 1].clients[i] == Finished(trace[k].clients[i].op, OptimisticLock)
    ensures at <= |trace[k].history|
    ensures exists n | 0 <= n < |trace[k].clients[i].obs| ::
              && StmtAt(d, trace[k].clients[i].op, trace[k].clients[i].obs, n) == ReadBalance(id)
              && trace[k].clients[i].obs[n].GotRow? && trace[k].clients[i].obs[n].at == at
    ensures id in Uncommitted(d, trace[k].clients[i]).rows
            || exists j | at <= j < |trace[k].history| :: WroteAt(d, trace[k], j, id)
  {
    hide StmtAt;
    hide WritesAt;
    hide Succeeds;
    hide ObsOk;
    hide WritesOk;
    hide Disjoint;
    hide WroteAt;
    hide Enabled;
    hide Run;
    Serializable(d, trace, k);
    var Running(op, obs) := trace[k].clients[i];
    LockErrorsAreUpdates(d, op, obs);
    id := StmtAt(d, op, obs, |obs|).id;
    at := ConflictHasACause(d, trace[k], op, obs);
  }

  // ----- Every property of the serial runs -----

  /** Committed operations are calls that arrived. */
  predicate HistoryArrived(s: Sys) {
    forall op | op in s.history :: exists c | c in s.clients :: c.op == op
  }

  lemma StepKeepsArrived(d: Directory, s: Sys, s': Sys)
    requires HistoryArrived(s) && Step(d, s, s')
    ensures HistoryArrived(s')
    ensures forall c | c in s.clients :: exists c' | c' in s'.clients :: c'.op == c.op
  {
    hide StmtAt;
    hide Enabled;
    hide Uncommitted;
    hide Merge;
    hide Succeeds;
    forall c | c in s.clients ensures exists c' | c' in s'.clients :: c'.op == c.op {
      var j :| 0 <= j < |s.clients| && s.clients[j] == c;
      assert s'.clients[j] in s'.clients && s'.clients[j].op == c.op;
    }
    forall op | op in s'.history ensures exists c | c in s'.clients :: c.op == op {
      if op in s.history {
        var c :| c in s.clients && c.op == op;
      } else {
        assert exists j | 0 <= j < |s'.clients| :: s'.clients[j].op == op;
      }
    }
  }

  lemma {:induction false} CommittedArrived(d: Directory, trace: seq<Sys>, k: nat)
    requires Run(d, trace) && k < |trace|
    ensures HistoryArrived(trace[k])
  {
    hide Step;
    if k > 0 {
      CommittedArrived(d, trace, k - 1);
      assert Step(d, trace[k - 1], trace[k - 1 + 1]);
      StepKeepsArrived(d, trace[k - 1], trace[k]);
    }
  }

  /** No client was called with a negative amount. */
  predicate NonNegativeCalls(s: Sys) {
    forall c | c in s.clients :: NonNegative(c.op)
  }

  /**
   * In every state of every interleaving: the tables follow the log, money is conserved, requests
   * and revenue keep their discipline, and events and settlements correspond one to one.
   */
  lemma EveryInterleavingIsConsistent(d: Directory, trace: seq<Sys>, k: nat, ids: seq<BalanceId>)
    requires Run(d, trace) && k < |trace| && DirectoryOk(d) && Fresh(trace[0].init)
    requires Enumerates(ids, trace[0].init.rows.Keys)
    ensures var s := trace[k].db;
            && Inv(s) && InView(s) && RequestsSound(s) && RevenueBounded(s.log)
            && |s.events| == Settlements(s.log) && OneToOne(d, trace[0].init, trace[k].history)
            && s.rows.Keys == trace[0].init.rows.Keys
            && Int64(ColumnTotal(ids, Bal, s.rows) + ColumnTotal(ids, Debit, s.rows)) == Int64(NetInflow(s.log))
            && s.rows[WORLD] == trace[0].init.rows[WORLD]
            && s.rows[REVENUE].bal == Int64(Fees(s.log))
  {
    hide Run;
    hide SysOk;
    hide RunAll;
    hide Inv;
    hide InView;
    hide RequestsSound;
    hide RevenueBounded;
    hide Int64;
    hide OneToOne;
    Serializable(d, trace, k);
    var init, h := trace[0].init, trace[k].history;
    FreshIsSound(init);
    BalancesAreViewOfLog(d, init, h);
    RunKeepsRequests(d, init, h);
    EventsMatchSettlements(d, init, h);
    EventsAreSettlements(d, init, h);
    ReachableConserves(d, init, h, ids);
    WorldNeverWritten(d, init, h);
    RevenueOverRuns(d, init, h);
  }

  /** No overdraft and no overflow in any interleaving, although the balance checks read outside the transaction. */
  lemma NoOverdraftInAnyInterleaving(d: Directory, trace: seq<Sys>, k: nat, b: BalanceId)
    requires Run(d, trace) && k < |trace| && DirectoryOk(d) && Fresh(trace[0].init)
    requires NonNegativeCalls(trace[k]) && |trace[k].db.events| <= MAX_EVENTS && b in trace[0].init.rows
    ensures var s := trace[k].db;
            b in s.rows && 0 <= s.rows[b].bal == Sum(Bal, s.log, b) <= MAX_TOPUP_AMOUNT * |s.events|
  {
    hide Run;
    hide SysOk;
    hide RunAll;
    hide NonNegative;
    Serializable(d, trace, k);
    CommittedArrived(d, trace, k);
    NoOverdraft(d, trace[0].init, trace[k].history, b);
  }

  /** The gateway reports each of its references under one event id, over all the calls made. */
  predicate OneEventCalls(s: Sys) {
    forall c, e | c in s.clients && e in s.clients && IsWebhook(c.op) && IsWebhook(e.op) ::
      ParentRef(c.op) == ParentRef(e.op) ==> EventOf(c.op) == EventOf(e.op)
  }

  /** In-flight columns are the unsettled reservations in any interleaving. */
  lemma InflightExactInAnyInterleaving(d: Directory, trace: seq<Sys>, k: nat, f: Field, b: BalanceId)
    requires Run(d, trace) && k < |trace| && DirectoryOk(d) && Fresh(trace[0].init)
    requires OneEventCalls(trace[k]) && f != Bal && b in trace[0].init.rows
    ensures var s := trace[k].db;
            && b in s.rows && Get(f, s.rows[b]) == Int64(Outstanding(f, s.log, s.log, b))
            && (NonNegativeCalls(trace[k]) && |s.events| <= MAX_EVENTS && |s.log| <= MAX_EVENTS ==>
                  0 <= Get(f, s.rows[b]) == Outstanding(f, s.log, s.log, b))
  {
    hide Run;
    hide SysOk;
    hide RunAll;
    hide NonNegative;
    hide Fresh;
    hide ParentRef;
    Serializable(d, trace, k);
    CommittedArrived(d, trace, k);
    InflightIsExact(d, trace[0].init, trace[k].history, f, b);
  }

  /** The column of @Revenue is within rounding of 1.5 percent of the committed prices in any interleaving. */
  lemma RevenueBoundedInAnyInterleaving(d: Directory, trace: seq<Sys>, k: nat)
    requires Run(d, trace) && k < |trace| && DirectoryOk(d) && Fresh(trace[0].init)
    requires NonNegativeCalls(trace[k]) && |trace[k].db.events| <= MAX_EVENTS
    ensures var s := trace[k].db;
            var V, n := Prices(d, trace[0].init, trace[k].history), Sales(d, trace[0].init, trace[k].history);
            REVENUE in s.rows && 15 * V <= 1000 * s.rows[REVENUE].bal <= 15 * V + 999 * n
  {
    hide Run;
    hide SysOk;
    hide RunAll;
    hide NonNegative;
    hide Fresh;
    hide Prices;
    hide Sales;
    Serializable(d, trace, k);
    CommittedArrived(d, trace, k);
    RevenueColumnIsBounded(d, trace[0].init, trace[k].history);
  }

  // ----- Between two states of a run -----

  /** Commits are only ever added. */
  lemma {:induction false} HistoryGrows(d: Directory, trace: seq<Sys>, j: nat, k: nat)
    requires Run(d, trace) && j <= k < |trace|
    ensures trace[j].history <= trace[k].history
  {
    hide Step;
    if j < k {
      HistoryGrows(d, trace, j, k - 1);
      assert Step(d, trace[k - 1], trace[k - 1 + 1]);
      StepAddsHistory(d, trace[k - 1], trace[k]);
    }
  }

  lemma StepAddsHistory(d: Directory, s: Sys, s': Sys)
    requires Step(d, s, s')
    ensures s.history <= s'.history
  {
    hide StmtAt;
    hide Enabled;
    hide Uncommitted;
    hide Merge;
    hide Succeeds;
  }

  /** Between any two states of any interleaving the balances grow by at most the cap per new event. */
  lemma GrowthBoundedInAnyInterleaving(d: Directory, trace: seq<Sys>, j: nat, k: nat, ids: seq<BalanceId>)
    requires Run(d, trace) && j <= k < |trace| && DirectoryOk(d) && Fresh(trace[0].init)
    requires NonNegativeCalls(trace[k]) && |trace[k].db.events| <= MAX_EVENTS
    requires Enumerates(ids, trace[0].init.rows.Keys)
    ensures var s, s' := trace[j].db, trace[k].db;
            && s.rows.Keys == s'.rows.Keys == trace[0].init.rows.Keys && s.events <= s'.events
            && ColumnTotal(ids, Bal, s'.rows) - ColumnTotal(ids, Bal, s.rows)
               <= MAX_TOPUP_AMOUNT * (|s'.events| - |s.events|)
  {
    hide Run;
    hide SysOk;
    hide RunAll;
    hide NonNegative;
    hide Fresh;
    hide Enumerates;
    hide ColumnTotal;
    Serializable(d, trace, j);
    Serializable(d, trace, k);
    CommittedArrived(d, trace, k);
    HistoryGrows(d, trace, j, k);
    var n := |trace[j].history|;
    assert trace[k].history[..n] == trace[j].history;
    RunGrowthIsBounded(d, trace[0].init, trace[k].history, n, ids);
  }

  /** Balances plus in-flight debits are exactly the net inflow in any interleaving. */
  lemma ConservesExactlyInAnyInterleaving(d: Directory, trace: seq<Sys>, k: nat, ids: seq<BalanceId>)
    requires Run(d, trace) && k < |trace| && DirectoryOk(d) && Fresh(trace[0].init)
    requires NonNegativeCalls(trace[k]) && |trace[k].db.events| <= MAX_EVENTS && |trace[k].db.log| <= MAX_EVENTS
    requires Enumerates(ids, trace[0].init.rows.Keys)
    ensures var s := trace[k].db;
            && s.rows.Keys == trace[0].init.rows.Keys
            && ColumnTotal(ids, Bal, s.rows) + ColumnTotal(ids, Debit, s.rows) == NetInflow(s.log)
  {
    hide Run;
    hide SysOk;
    hide RunAll;
    hide NonNegative;
    hide Fresh;
    hide Enumerates;
    hide ColumnTotal;
    Serializable(d, trace, k);
    CommittedArrived(d, trace, k);
    ConservesExactly(d, trace[0].init, trace[k].history, ids);
  }

  /** The i-th commit is a payment, and the latest commit, whatever came between, is its refund. */
  predicate RefundedLast(d: Directory, s: Sys, i: nat) {
    var h, n := s.history, |s.history| - 1;
    && i < n && h[i].DoPay? && h[n].DoRefund?
    && var before := RunAll(d, s.init, h[..n]);
       h[n].request in before.reqs && before.reqs[h[n].request].ref == "payment_" + h[i].payRef
  }

  /**
   * Payment and refund in any interleaving: right after the refund commits, every balance is where
   * the commits in between alone would have taken it, but for the fee.
   */
  lemma RoundTripInAnyInterleaving(d: Directory, trace: seq<Sys>, k: nat, i: nat, b: BalanceId)
      returns (more: seq<Txn>)
    requires Run(d, trace) && k < |trace| && DirectoryOk(d) && Fresh(trace[0].init) && b in trace[0].init.rows
    requires RefundedLast(d, trace[k], i)
    ensures var h, n := trace[k].history, |trace[k].history| - 1;
            var s := RunAll(d, trace[0].init, h[..i]);
            && RunAll(d, trace[0].init, h[..n]).log == RunAll(d, trace[0].init, h[..i + 1]).log + more
            && h[i].user in d.user && b in s.rows && b in trace[k].db.rows
            && trace[k].db.rows[b].bal
               == Int64(s.rows[b].bal + Sum(Bal, more, b) + FeeOnly(b, d.user[h[i].user], Fee(h[i].price)))
  {
    hide Run;
    hide ClientOk;
    hide Disjoint;
    hide RunAll;
    hide ApplyPay;
    hide ApplyRefund;
    hide Inv;
    hide InView;
    hide Int64;
    hide Fee;
    Serializable(d, trace, k);
    var init, h, n := trace[0].init, trace[k].history, |trace[k].history| - 1;
    var s := RunAll(d, init, h[..i]);
    BalancesAreViewOfLog(d, init, h[..i]);
    RunKeepsKeys(d, init, h[..i]);
    RunKeepsKeys(d, init, h);
    CommitsInTurn(d, init, h, i);
    CommitsInTurn(d, init, h, n);
    var between := h[i + 1..n];
    assert h[..n] == h[..i + 1] + between && h[..n + 1] == h;
    RunAllConcat(d, init, h[..i + 1], between);
    PaymentIsFound(d, s, h[i], []);
    more := PaymentRefundRoundTrip(d, s, h[i], between, h[n], b);
  }

  /** The j-th operation of a run of commits takes its serial effect. */
  lemma CommitsInTurn(d: Directory, init: State, ops: seq<Op>, j: nat)
    requires AllCommit(d, init, ops) && j < |ops|
    ensures Apply(d, RunAll(d, init, ops[..j]), ops[j]).Committed?
    ensures RunAll(d, init, ops[..j + 1]) == Apply(d, RunAll(d, init, ops[..j]), ops[j]).s
  {
    hide Apply;
    assert ops[..j + 1] == ops[..j] + [ops[j]];
    RunAllSnoc(d, init, ops[..j], ops[j]);
  }
}
