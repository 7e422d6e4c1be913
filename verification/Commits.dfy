// What is known about a client while others commit around it, and why a client that reaches its
// commit has done exactly what the serial operation does on the database it commits to.
module Commits {
  import opened Base
  import opened Ledger
  import opened Serial
  import opened Versions
  import opened Protocol

  /** row is what balance id held after the first `at` commits. */
  predicate RowAsOf(d: Directory, s: Sys, at: nat, id: BalanceId, row: Row) {
    at <= |s.history| && id in s.init.rows
    && var after := RunAll(d, s.init, s.history[..at]); id in after.rows && row == after.rows[id]
  }

  /** What a statement returned, and how much of it is still known to be true; w are the writes before it. */
  predicate Holds(d: Directory, s: Sys, stmt: Stmt, w: Delta, o: Obs) {
    match stmt
    case ReadBalance(id) => o.GotRow? && RowAsOf(d, s, o.at, id, o.row)
    case CheckBalance(id) => id in s.db.rows
    case ReadTxn(ref) => o.GotTxn? && Find(s.db.log, ref) == Some(o.t)
    case ClaimRequest(q) => o.GotRequest? && q in s.db.reqs && s.db.reqs[q] == o.r && o.r.status == Pending
    case FailRequest(q) => o.GotRequest? && q in s.db.reqs && s.db.reqs[q] == o.r
    case InsertTxn(t) => CanInsert(w.log, t)
    case UpdateRow(id, _) => id !in w.rows
    case CompleteRequest(q) => q in w.reqs && w.reqs[q].status == Processing
    case Commit(_) => false
    case Abort(_) => false
    case _ => true
  }

  predicate ObsOk(d: Directory, s: Sys, op: Op, obs: seq<Obs>, k: nat)
    requires k < |obs|
  {
    Holds(d, s, StmtAt(d, op, obs, k), WritesAt(d, op, obs, k), obs[k])
  }

  /** Uncommitted writes that the committed database still admits. */
  predicate WritesOk(db: State, w: Delta) {
    && (forall t | t in w.log :: CanInsert(db.log, t))
    && (forall id | id in w.rows :: id in db.rows && w.rows[id].read.version == db.rows[id].version)
    && db.events !! w.events
    && (forall q | q in w.reqs ::
          if w.reqs[q].status == Pending then q !in db.reqs && !HasPending(db.reqs, w.reqs[q].ref)
          else q in db.reqs && db.reqs[q].ref == w.reqs[q].ref)
  }

  /** Two clients' uncommitted writes never touch the same row or key. */
  predicate Disjoint(w: Delta, x: Delta) {
    && w.rows.Keys !! x.rows.Keys && w.events !! x.events && w.reqs.Keys !! x.reqs.Keys
    && (forall t | t in w.log :: CanInsert(x.log, t))
    && (forall q, u | q in w.reqs && u in x.reqs && w.reqs[q].status == Pending && x.reqs[u].status == Pending ::
          w.reqs[q].ref != x.reqs[u].ref)
  }

  predicate ClientOk(d: Directory, s: Sys, c: Client) {
    c.Running? ==>
      && (forall k | 0 <= k < |c.obs| :: ObsOk(d, s, c.op, c.obs, k))
      && WritesOk(s.db, Uncommitted(d, c))
  }

  /** The database is the serial run of the history, and every operation in it committed. */
  predicate Serialized(d: Directory, s: Sys) {
    s.db == RunAll(d, s.init, s.history) && AllCommit(d, s.init, s.history)
  }

  predicate SysOk(d: Directory, s: Sys) {
    && Serialized(d, s)
    && (forall i | 0 <= i < |s.clients| :: ClientOk(d, s, s.clients[i]))
    && forall i, j | 0 <= i < |s.clients| && 0 <= j < |s.clients| && i != j ::
         Disjoint(Uncommitted(d, s.clients[i]), Uncommitted(d, s.clients[j]))
  }

  // ----- A client that reaches its commit has done exactly what the serial operation does -----

  /** A row read earlier and now successfully written has not changed in between. */
  lemma WrittenRowIsFresh(d: Directory, s: Sys, at: nat, id: BalanceId, row: Row, w: Delta)
    requires Serialized(d, s) && RowAsOf(d, s, at, id, row) && WritesOk(s.db, w)
    requires id in w.rows && w.rows[id].read == row
    ensures id in s.db.rows && s.db.rows[id] == row
  {
    hide HasPending;
    VersionDeterminesRow(d, s.init, s.history, at, id);
  }

  lemma LoggedIsNew(db: State, w: Delta, t: Txn)
    requires WritesOk(db, w) && t in w.log
    ensures CanInsert(db.log, t)
  {
    hide HasPending;
  }

  /** The first |obs| statements neither committed nor gave up. */
  predicate StillGoing(d: Directory, op: Op, obs: seq<Obs>) {
    forall k | 0 <= k < |obs| :: !StmtAt(d, op, obs, k).Commit? && !StmtAt(d, op, obs, k).Abort?
  }

  lemma ClientIsStillGoing(d: Directory, s: Sys, op: Op, obs: seq<Obs>)
    requires ClientOk(d, s, Running(op, obs))
    ensures StillGoing(d, op, obs)
  {
    hide StmtAt;
    forall k | 0 <= k < |obs| ensures !StmtAt(d, op, obs, k).Commit? && !StmtAt(d, op, obs, k).Abort? {
      assert ObsOk(d, s, op, obs, k);
    }
  }

  // Top-ups and withdrawals read a balance, check that @World exists, log one entry, update one row.

  predicate OneRowScript(d: Directory, op: Op, obs: seq<Obs>, b: BalanceId, t: Txn, c: Change) {
    && |obs| == 4
    && StmtAt(d, op, obs, 0) == ReadBalance(b) && StmtAt(d, op, obs, 1) == CheckBalance(WORLD)
    && StmtAt(d, op, obs, 2) == InsertTxn(t) && StmtAt(d, op, obs, 3) == UpdateRow(b, c)
    && StmtAt(d, op, obs, 4) == Commit(Ok)
  }

  lemma TopupScript(d: Directory, op: Op, obs: seq<Obs>)
    requires op.DoTopup? && StillGoing(d, op, obs) && StmtAt(d, op, obs, |obs|).Commit?
    ensures op.amount <= MAX_TOPUP_AMOUNT && op.identity in d.identity && obs != []
    ensures var b, r := d.identity[op.identity], RowOf(obs[0]);
            OneRowScript(d, op, obs, b, TopupTxn(op, b), Change(r, r.bal, r.credit + op.amount, r.debit))
  {
    hide Updated;
    hide TopupTxn;
    assert |obs| > 4 ==> StmtAt(d, op, obs, 4) == Commit(Ok);
  }

  lemma WithdrawScript(d: Directory, op: Op, obs: seq<Obs>)
    requires op.DoWithdraw? && StillGoing(d, op, obs) && StmtAt(d, op, obs, |obs|).Commit?
    ensures op.amount <= MAX_WITHDRAWAL_AMOUNT && op.identity in d.identity && obs != []
    ensures var b, r := d.identity[op.identity], RowOf(obs[0]);
            && op.amount <= r.bal
            && OneRowScript(d, op, obs, b, WithdrawTxn(op, b),
                            Change(r, r.bal - op.amount, r.credit, r.debit + op.amount))
  {
    hide Updated;
    hide WithdrawTxn;
    assert |obs| > 4 ==> StmtAt(d, op, obs, 4) == Commit(Ok);
  }

  lemma OneRowWrites(d: Directory, op: Op, obs: seq<Obs>, b: BalanceId, t: Txn, c: Change)
    requires OneRowScript(d, op, obs, b, t, c)
    ensures WritesAt(d, op, obs, 4) == Delta(map[b := c], [t], {}, map[])
  {
    hide StmtAt;
    assert WritesAt(d, op, obs, 1) == NO_WRITES;
    assert WritesAt(d, op, obs, 2) == NO_WRITES;
    assert WritesAt(d, op, obs, 3) == Delta(map[], [t], {}, map[]);
  }

  lemma OneRowFacts(d: Directory, s: Sys, op: Op, obs: seq<Obs>, b: BalanceId, t: Txn, c: Change)
    requires Serialized(d, s) && ClientOk(d, s, Running(op, obs))
    requires OneRowScript(d, op, obs, b, t, c) && c.read == RowOf(obs[0])
    ensures b in s.db.rows && s.db.rows[b] == RowOf(obs[0]) && WORLD in s.db.rows && CanInsert(s.db.log, t)
    ensures WritesAt(d, op, obs, |obs|) == Delta(map[b := c], [t], {}, map[])
  {
    hide StmtAt;
    hide WritesAt;
    hide WritesOk;
    hide RowAsOf;
    hide Serialized;
    hide CanInsert;
    assert ObsOk(d, s, op, obs, 0) && ObsOk(d, s, op, obs, 1);
    OneRowWrites(d, op, obs, b, t, c);
    var w := Delta(map[b := c], [t], {}, map[]);
    WrittenRowIsFresh(d, s, obs[0].at, b, obs[0].row, w);
    LoggedIsNew(s.db, w, t);
  }

  lemma MergeOneRow(db: State, b: BalanceId, c: Change, t: Txn)
    ensures Merge(db, Delta(map[b := c], [t], {}, map[])) == db.(log := db.log + [t], rows := db.rows[b := Stored(c)])
  {
    hide Stored;
    assert StoredRows(map[b := c]) == map[b := Stored(c)];
    assert db.rows + map[b := Stored(c)] == db.rows[b := Stored(c)];
    assert db.events + {} == db.events;
    assert db.reqs + map[] == db.reqs;
  }

  lemma TopupCommits(d: Directory, s: Sys, op: Op, obs: seq<Obs>)
    requires op.DoTopup? && Serialized(d, s) && ClientOk(d, s, Running(op, obs)) && StmtAt(d, op, obs, |obs|).Commit?
    ensures Apply(d, s.db, op) == Committed(Merge(s.db, WritesAt(d, op, obs, |obs|)), StmtAt(d, op, obs, |obs|).reply)
  {
    hide StmtAt;
    hide WritesAt;
    hide ClientOk;
    hide Serialized;
    hide Updated;
    hide Merge;
    hide CanInsert;
    ClientIsStillGoing(d, s, op, obs);
    TopupScript(d, op, obs);
    var b, r := d.identity[op.identity], RowOf(obs[0]);
    OneRowFacts(d, s, op, obs, b, TopupTxn(op, b), Change(r, r.bal, r.credit + op.amount, r.debit));
    MergeOneRow(s.db, b, Change(r, r.bal, r.credit + op.amount, r.debit), TopupTxn(op, b));
  }

  lemma WithdrawCommits(d: Directory, s: Sys, op: Op, obs: seq<Obs>)
    requires op.DoWithdraw? && Serialized(d, s) && ClientOk(d, s, Running(op, obs)) && StmtAt(d, op, obs, |obs|).Commit?
    ensures Apply(d, s.db, op) == Committed(Merge(s.db, WritesAt(d, op, obs, |obs|)), StmtAt(d, op, obs, |obs|).reply)
  {
    hide StmtAt;
    hide WritesAt;
    hide ClientOk;
    hide Serialized;
    hide Updated;
    hide Merge;
    hide CanInsert;
    ClientIsStillGoing(d, s, op, obs);
    WithdrawScript(d, op, obs);
    var b, r := d.identity[op.identity], RowOf(obs[0]);
    OneRowFacts(d, s, op, obs, b, WithdrawTxn(op, b), Change(r, r.bal - op.amount, r.credit, r.debit + op.amount));
    MergeOneRow(s.db, b, Change(r, r.bal - op.amount, r.credit, r.debit + op.amount), WithdrawTxn(op, b));
  }

  // Deliveries

  predicate WebhookScript(d: Directory, op: Op, obs: seq<Obs>)
    requires IsWebhook(op)
  {
    && |obs| == 5
    && var p, r := TxnOf(obs[0]), RowOf(obs[2]);
       && StmtAt(d, op, obs, 0) == ReadTxn(ParentRef(op)) && StmtAt(d, op, obs, 1) == MarkEvent((op.source, op.event))
       && StmtAt(d, op, obs, 2) == ReadBalance(SettledBalance(op, p))
       && StmtAt(d, op, obs, 3) == InsertTxn(SettleTxn(op, p))
       && StmtAt(d, op, obs, 4) == UpdateRow(SettledBalance(op, p), SettledChange(op, r, p.amount))
       && StmtAt(d, op, obs, 5) == Commit(if NewStatus(op.report) == Void then GatewayFailure else Ok)
       && p.status == Inflight && (op.report == "succeeded" || op.report == "failed")
  }

  lemma WebhookFollowsScript(d: Directory, op: Op, obs: seq<Obs>)
    requires IsWebhook(op) && StillGoing(d, op, obs) && StmtAt(d, op, obs, |obs|).Commit?
    ensures WebhookScript(d, op, obs)
  {
    hide SettledRow;
    hide SettleTxn;
    hide ParentRef;
    assert |obs| > 5 ==> StmtAt(d, op, obs, 5).Commit?;
  }

  lemma WebhookWrites(d: Directory, op: Op, obs: seq<Obs>)
    requires IsWebhook(op) && WebhookScript(d, op, obs)
    ensures var p := TxnOf(obs[0]);
            WritesAt(d, op, obs, 5) == Delta(map[SettledBalance(op, p) := SettledChange(op, RowOf(obs[2]), p.amount)],
                                             [SettleTxn(op, p)], {(op.source, op.event)}, map[])
  {
    hide StmtAt;
    hide SettledRow;
    hide SettleTxn;
    assert WritesAt(d, op, obs, 1) == NO_WRITES;
    assert WritesAt(d, op, obs, 2) == Delta(map[], [], {(op.source, op.event)}, map[]);
    assert WritesAt(d, op, obs, 3) == WritesAt(d, op, obs, 2);
    assert WritesAt(d, op, obs, 4) == Delta(map[], [SettleTxn(op, TxnOf(obs[0]))], {(op.source, op.event)}, map[]);
  }

  lemma WebhookFacts(d: Directory, s: Sys, op: Op, obs: seq<Obs>)
    requires IsWebhook(op) && Serialized(d, s) && ClientOk(d, s, Running(op, obs)) && WebhookScript(d, op, obs)
    ensures var p := TxnOf(obs[0]);
            && Find(s.db.log, ParentRef(op)) == Some(p) && SettledBalance(op, p) in s.db.rows
            && s.db.rows[SettledBalance(op, p)] == RowOf(obs[2])
            && (op.source, op.event) !in s.db.events && CanInsert(s.db.log, SettleTxn(op, p))
  {
    hide StmtAt;
    hide WritesAt;
    hide RowAsOf;
    hide Serialized;
    hide CanInsert;
    hide HasPending;
    hide SettleTxn;
    hide SettledRow;
    assert ObsOk(d, s, op, obs, 0) && ObsOk(d, s, op, obs, 2);
    WebhookWrites(d, op, obs);
    var p, r := TxnOf(obs[0]), RowOf(obs[2]);
    SettledIsStored(op, r, p.amount);
    var w := WritesAt(d, op, obs, 5);
    WrittenRowIsFresh(d, s, obs[2].at, SettledBalance(op, p), r, w);
    LoggedIsNew(s.db, w, SettleTxn(op, p));
    assert (op.source, op.event) in w.events;
  }

  lemma SettledIsStored(op: Op, r: Row, amount: I64)
    requires IsWebhook(op)
    ensures SettledChange(op, r, amount).read == r
    ensures Stored(SettledChange(op, r, amount)) == SettledRow(op, r, amount)
  {
    hide Updated;
  }

  /** The writes of a delivery, merged, are its serial effect. */
  lemma WebhookEffect(db: State, op: Op, p: Txn)
    requires IsWebhook(op) && Find(db.log, ParentRef(op)) == Some(p) && p.status == Inflight
    requires (op.report == "succeeded" || op.report == "failed") && (op.source, op.event) !in db.events
    requires SettledBalance(op, p) in db.rows && CanInsert(db.log, SettleTxn(op, p))
    ensures var b := SettledBalance(op, p);
            ApplyWebhook(db, op)
            == Committed(Merge(db, Delta(map[b := SettledChange(op, db.rows[b], p.amount)], [SettleTxn(op, p)],
                                         {(op.source, op.event)}, map[])),
                         if NewStatus(op.report) == Void then GatewayFailure else Ok)
  {
    hide ParentRef;
    hide CanInsert;
    hide Stored;
    hide SettledChange;
    hide SettledRow;
    hide Find;
    var b := SettledBalance(op, p);
    var c := SettledChange(op, db.rows[b], p.amount);
    SettledIsStored(op, db.rows[b], p.amount);
    assert StoredRows(map[b := c]) == map[b := Stored(c)];
    assert db.rows + map[b := Stored(c)] == db.rows[b := Stored(c)];
    assert db.reqs + map[] == db.reqs;
  }

  lemma WebhookCommits(d: Directory, s: Sys, op: Op, obs: seq<Obs>)
    requires IsWebhook(op) && Serialized(d, s) && ClientOk(d, s, Running(op, obs)) && StmtAt(d, op, obs, |obs|).Commit?
    ensures Apply(d, s.db, op) == Committed(Merge(s.db, WritesAt(d, op, obs, |obs|)), StmtAt(d, op, obs, |obs|).reply)
  {
    hide StmtAt;
    hide WritesAt;
    hide ClientOk;
    hide Serialized;
    hide SettledChange;
    hide SettleTxn;
    hide CanInsert;
    hide ParentRef;
    hide ApplyWebhook;
    hide Merge;
    ClientIsStillGoing(d, s, op, obs);
    WebhookFollowsScript(d, op, obs);
    WebhookFacts(d, s, op, obs);
    WebhookWrites(d, op, obs);
    WebhookEffect(s.db, op, TxnOf(obs[0]));
  }

  // Transfers

  predicate TransferScript(d: Directory, op: Op, obs: seq<Obs>)
    requires op.DoTransfer?
  {
    && |obs| == 5 && op.identity in d.identity && op.email in d.email && op.amount <= MAX_TRANSFER_AMOUNT
    && var a, b, x, y := d.identity[op.identity], d.email[op.email], RowOf(obs[0]), RowOf(obs[1]);
       && StmtAt(d, op, obs, 0) == ReadBalance(a) && StmtAt(d, op, obs, 1) == ReadBalance(b)
       && StmtAt(d, op, obs, 2) == InsertTxn(TransferTxn(op, a, b))
       && StmtAt(d, op, obs, 3) == UpdateRow(a, Change(x, x.bal - op.amount, x.credit, x.debit))
       && StmtAt(d, op, obs, 4) == UpdateRow(b, Change(y, y.bal + op.amount, y.credit, y.debit))
       && StmtAt(d, op, obs, 5) == Commit(Ok)
       && op.amount <= x.bal && a != b && y.ledger != MERCHANT_LEDGER
  }

  lemma TransferFollowsScript(d: Directory, op: Op, obs: seq<Obs>)
    requires op.DoTransfer? && StillGoing(d, op, obs) && StmtAt(d, op, obs, |obs|).Commit?
    ensures TransferScript(d, op, obs)
  {
    hide Updated;
    hide TransferTxn;
    assert |obs| > 5 ==> StmtAt(d, op, obs, 5) == Commit(Ok);
  }

  /** Two rows updated and one entry logged, in either order. */
  function TwoRows(a: BalanceId, x: Change, b: BalanceId, y: Change): map<BalanceId, Change> {
    map[a := x][b := y]
  }

  lemma TransferWrites(d: Directory, op: Op, obs: seq<Obs>)
    requires op.DoTransfer? && TransferScript(d, op, obs)
    ensures var a, b, x, y := d.identity[op.identity], d.email[op.email], RowOf(obs[0]), RowOf(obs[1]);
            WritesAt(d, op, obs, 5)
            == Delta(TwoRows(a, Change(x, x.bal - op.amount, x.credit, x.debit),
                             b, Change(y, y.bal + op.amount, y.credit, y.debit)), [TransferTxn(op, a, b)], {}, map[])
  {
    hide StmtAt;
    hide Updated;
    hide TransferTxn;
    var a, b := d.identity[op.identity], d.email[op.email];
    assert WritesAt(d, op, obs, 1) == NO_WRITES;
    assert WritesAt(d, op, obs, 2) == NO_WRITES;
    assert WritesAt(d, op, obs, 3) == Delta(map[], [TransferTxn(op, a, b)], {}, map[]);
    assert WritesAt(d, op, obs, 4).rows.Keys == {a};
  }

  lemma TransferFacts(d: Directory, s: Sys, op: Op, obs: seq<Obs>)
    requires op.DoTransfer? && Serialized(d, s) && ClientOk(d, s, Running(op, obs)) && TransferScript(d, op, obs)
    ensures var a, b := d.identity[op.identity], d.email[op.email];
            && a in s.db.rows && b in s.db.rows && s.db.rows[a] == RowOf(obs[0]) && s.db.rows[b] == RowOf(obs[1])
            && CanInsert(s.db.log, TransferTxn(op, a, b))
  {
    hide StmtAt;
    hide WritesAt;
    hide RowAsOf;
    hide Serialized;
    hide WritesOk;
    hide Updated;
    hide TransferTxn;
    hide CanInsert;
    assert ObsOk(d, s, op, obs, 0) && ObsOk(d, s, op, obs, 1);
    TransferWrites(d, op, obs);
    var a, b, x, y := d.identity[op.identity], d.email[op.email], RowOf(obs[0]), RowOf(obs[1]);
    var w := WritesAt(d, op, obs, 5);
    WrittenRowIsFresh(d, s, obs[0].at, a, x, w);
    WrittenRowIsFresh(d, s, obs[1].at, b, y, w);
    LoggedIsNew(s.db, w, TransferTxn(op, a, b));
  }

  lemma MergeTwoRows(rows: map<BalanceId, Row>, a: BalanceId, x: Change, b: BalanceId, y: Change)
    ensures rows + StoredRows(TwoRows(a, x, b, y)) == rows[a := Stored(x)][b := Stored(y)]
  {
    hide Stored;
  }

  lemma TransferCommits(d: Directory, s: Sys, op: Op, obs: seq<Obs>)
    requires op.DoTransfer? && Serialized(d, s) && ClientOk(d, s, Running(op, obs)) && StmtAt(d, op, obs, |obs|).Commit?
    ensures Apply(d, s.db, op) == Committed(Merge(s.db, WritesAt(d, op, obs, |obs|)), StmtAt(d, op, obs, |obs|).reply)
  {
    hide StmtAt;
    hide WritesAt;
    hide ClientOk;
    hide Serialized;
    hide Updated;
    hide CanInsert;
    hide TwoRows;
    ClientIsStillGoing(d, s, op, obs);
    TransferFollowsScript(d, op, obs);
    TransferFacts(d, s, op, obs);
    TransferWrites(d, op, obs);
    var a, b, x, y := d.identity[op.identity], d.email[op.email], RowOf(obs[0]), RowOf(obs[1]);
    MergeTwoRows(s.db.rows, a, Change(x, x.bal - op.amount, x.credit, x.debit),
                 b, Change(y, y.bal + op.amount, y.credit, y.debit));
    assert s.db.events + {} == s.db.events;
    assert s.db.reqs + map[] == s.db.reqs;
  }

  // Payments

  /** The three rows a payment writes, from the three it read. */
  function PaidRows(op: Op, a: BalanceId, x: Row, m: BalanceId, y: Row, z: Row): map<BalanceId, Change>
    requires op.DoPay?
  {
    map[a := Change(x, x.bal - op.price, x.credit, x.debit)]
       [m := Change(y, y.bal + (op.price - Fee(op.price)), y.credit, y.debit)]
       [REVENUE := Change(z, z.bal + Fee(op.price), z.credit, z.debit)]
  }

  predicate PayScript(d: Directory, op: Op, obs: seq<Obs>)
    requires op.DoPay?
  {
    && |obs| == 8 && op.user in d.user && op.merchant in d.merchant
    && var a, m, x, y, z := d.user[op.user], d.merchant[op.merchant], RowOf(obs[0]), RowOf(obs[1]), RowOf(obs[2]);
       && StmtAt(d, op, obs, 0) == ReadBalance(a) && StmtAt(d, op, obs, 1) == ReadBalance(m)
       && StmtAt(d, op, obs, 2) == ReadBalance(REVENUE)
       && StmtAt(d, op, obs, 3) == InsertTxn(PayTxn(op, a, m)) && StmtAt(d, op, obs, 4) == InsertTxn(FeeTxn(op, a))
       && StmtAt(d, op, obs, 5) == UpdateRow(a, Change(x, x.bal - op.price, x.credit, x.debit))
       && StmtAt(d, op, obs, 6) == UpdateRow(m, Change(y, y.bal + (op.price - Fee(op.price)), y.credit, y.debit))
       && StmtAt(d, op, obs, 7) == UpdateRow(REVENUE, Change(z, z.bal + Fee(op.price), z.credit, z.debit))
       && StmtAt(d, op, obs, 8) == Commit(Ok)
       && op.price <= x.bal
  }

  lemma PayFollowsScript(d: Directory, op: Op, obs: seq<Obs>)
    requires op.DoPay? && StillGoing(d, op, obs) && StmtAt(d, op, obs, |obs|).Commit?
    ensures PayScript(d, op, obs)
  {
    hide Updated;
    hide PayTxn;
    hide FeeTxn;
    hide Fee;
    assert |obs| > 8 ==> StmtAt(d, op, obs, 8) == Commit(Ok);
  }

  lemma PayWrites(d: Directory, op: Op, obs: seq<Obs>)
    requires op.DoPay? && PayScript(d, op, obs)
    ensures var a, m, x, y, z := d.user[op.user], d.merchant[op.merchant], RowOf(obs[0]), RowOf(obs[1]), RowOf(obs[2]);
            && WritesAt(d, op, obs, 8)
               == Delta(PaidRows(op, a, x, m, y, z), [PayTxn(op, a, m), FeeTxn(op, a)], {}, map[])
            && WritesAt(d, op, obs, 4).log == [PayTxn(op, a, m)]
            && WritesAt(d, op, obs, 6).rows.Keys == {a} && WritesAt(d, op, obs, 7).rows.Keys == {a, m}
  {
    hide StmtAt;
    hide Updated;
    hide PayTxn;
    hide FeeTxn;
    hide Fee;
    var a, m := d.user[op.user], d.merchant[op.merchant];
    assert WritesAt(d, op, obs, 1) == NO_WRITES;
    assert WritesAt(d, op, obs, 2) == NO_WRITES;
    assert WritesAt(d, op, obs, 3) == NO_WRITES;
    assert WritesAt(d, op, obs, 4) == Delta(map[], [PayTxn(op, a, m)], {}, map[]);
    assert WritesAt(d, op, obs, 5) == Delta(map[], [PayTxn(op, a, m), FeeTxn(op, a)], {}, map[]);
    assert WritesAt(d, op, obs, 6).rows.Keys == {a};
    assert WritesAt(d, op, obs, 7).rows.Keys == {a, m};
  }

  lemma PayFacts(d: Directory, s: Sys, op: Op, obs: seq<Obs>)
    requires op.DoPay? && Serialized(d, s) && ClientOk(d, s, Running(op, obs)) && PayScript(d, op, obs)
    ensures var a, m := d.user[op.user], d.merchant[op.merchant];
            && a != m && a != REVENUE && m != REVENUE
            && a in s.db.rows && m in s.db.rows && REVENUE in s.db.rows
            && s.db.rows[a] == RowOf(obs[0]) && s.db.rows[m] == RowOf(obs[1]) && s.db.rows[REVENUE] == RowOf(obs[2])
            && CanInsert(s.db.log, PayTxn(op, a, m)) && CanInsert(s.db.log, FeeTxn(op, a))
            && CanInsert([PayTxn(op, a, m)], FeeTxn(op, a))
  {
    hide StmtAt;
    hide WritesAt;
    hide RowAsOf;
    hide Serialized;
    hide WritesOk;
    hide Updated;
    hide PayTxn;
    hide FeeTxn;
    hide Fee;
    hide CanInsert;
    var a, m, x, y, z := d.user[op.user], d.merchant[op.merchant], RowOf(obs[0]), RowOf(obs[1]), RowOf(obs[2]);
    assert ObsOk(d, s, op, obs, 0) && ObsOk(d, s, op, obs, 1) && ObsOk(d, s, op, obs, 2);
    assert ObsOk(d, s, op, obs, 4) && ObsOk(d, s, op, obs, 6) && ObsOk(d, s, op, obs, 7);
    PayWrites(d, op, obs);
    var w := WritesAt(d, op, obs, 8);
    WrittenRowIsFresh(d, s, obs[0].at, a, x, w);
    WrittenRowIsFresh(d, s, obs[1].at, m, y, w);
    WrittenRowIsFresh(d, s, obs[2].at, REVENUE, z, w);
    LoggedIsNew(s.db, w, PayTxn(op, a, m));
    LoggedIsNew(s.db, w, FeeTxn(op, a));
  }

  lemma MergePaidRows(rows: map<BalanceId, Row>, op: Op, a: BalanceId, x: Row, m: BalanceId, y: Row, z: Row)
    requires op.DoPay?
    ensures rows + StoredRows(PaidRows(op, a, x, m, y, z))
            == rows[a := Updated(x, x.bal - op.price, x.credit, x.debit)]
                   [m := Updated(y, y.bal + (op.price - Fee(op.price)), y.credit, y.debit)]
                   [REVENUE := Updated(z, z.bal + Fee(op.price), z.credit, z.debit)]
  {
    hide Updated;
    hide Fee;
  }

  lemma CanInsertBoth(log: seq<Txn>, p: Txn, f: Txn)
    requires CanInsert(log, f) && CanInsert([p], f)
    ensures CanInsert(log + [p], f)
  {
    assert p in [p];
  }

  /** The writes of a payment, merged, are its serial effect. */
  lemma PayEffect(d: Directory, db: State, op: Op)
    requires op.DoPay? && Known(d.user, op.user, db.rows) && Known(d.merchant, op.merchant, db.rows)
    requires REVENUE in db.rows
    requires var a, m := d.user[op.user], d.merchant[op.merchant];
             && a != m && a != REVENUE && m != REVENUE && op.price <= db.rows[a].bal
             && CanInsert(db.log, PayTxn(op, a, m)) && CanInsert(db.log + [PayTxn(op, a, m)], FeeTxn(op, a))
    ensures var a, m := d.user[op.user], d.merchant[op.merchant];
            ApplyPay(d, db, op)
            == Committed(Merge(db, Delta(PaidRows(op, a, db.rows[a], m, db.rows[m], db.rows[REVENUE]),
                                         [PayTxn(op, a, m), FeeTxn(op, a)], {}, map[])), Ok)
  {
    hide Updated;
    hide PaidRows;
    hide Fee;
    hide PayTxn;
    hide FeeTxn;
    hide CanInsert;
    var a, m := d.user[op.user], d.merchant[op.merchant];
    MergePaidRows(db.rows, op, a, db.rows[a], m, db.rows[m], db.rows[REVENUE]);
    assert db.events + {} == db.events;
    assert db.reqs + map[] == db.reqs;
  }

  lemma PayCommits(d: Directory, s: Sys, op: Op, obs: seq<Obs>)
    requires op.DoPay? && Serialized(d, s) && ClientOk(d, s, Running(op, obs)) && StmtAt(d, op, obs, |obs|).Commit?
    ensures Apply(d, s.db, op) == Committed(Merge(s.db, WritesAt(d, op, obs, |obs|)), StmtAt(d, op, obs, |obs|).reply)
  {
    hide StmtAt;
    hide WritesAt;
    hide ClientOk;
    hide Serialized;
    hide Updated;
    hide PaidRows;
    hide Fee;
    hide PayTxn;
    hide FeeTxn;
    hide CanInsert;
    hide ApplyPay;
    hide Merge;
    ClientIsStillGoing(d, s, op, obs);
    PayFollowsScript(d, op, obs);
    PayFacts(d, s, op, obs);
    PayWrites(d, op, obs);
    CanInsertBoth(s.db.log, PayTxn(op, d.user[op.user], d.merchant[op.merchant]), FeeTxn(op, d.user[op.user]));
    PayEffect(d, s.db, op);
  }

  // Refund requests, and marking one failed

  lemma RequestRefundCommits(d: Directory, s: Sys, op: Op, obs: seq<Obs>)
    requires op.DoRequestRefund? && ClientOk(d, s, Running(op, obs)) && StmtAt(d, op, obs, |obs|).Commit?
    ensures Apply(d, s.db, op) == Committed(Merge(s.db, WritesAt(d, op, obs, |obs|)), StmtAt(d, op, obs, |obs|).reply)
  {
    hide IsPayment;
    ClientIsStillGoing(d, s, op, obs);
    assert |obs| > 2 ==> StmtAt(d, op, obs, 2) == Commit(Ok);
    assert |obs| == 2;
    assert ObsOk(d, s, op, obs, 0);
    assert WritesAt(d, op, obs, 1) == NO_WRITES;
    var w := WritesAt(d, op, obs, 2);
    assert w == Delta(map[], [], {}, map[op.id := Request(op.ref, Pending, op.now)]);
    assert op.id in w.reqs;
    assert s.db.rows + map[] == s.db.rows;
    assert s.db.events + {} == s.db.events;
    assert s.db.log + [] == s.db.log;
    assert s.db.reqs + w.reqs == s.db.reqs[op.id := Request(op.ref, Pending, op.now)];
  }

  lemma MarkFailedCommits(d: Directory, s: Sys, op: Op, obs: seq<Obs>)
    requires op.DoMarkFailed? && ClientOk(d, s, Running(op, obs)) && StmtAt(d, op, obs, |obs|).Commit?
    ensures Apply(d, s.db, op) == Committed(Merge(s.db, WritesAt(d, op, obs, |obs|)), StmtAt(d, op, obs, |obs|).reply)
  {
    ClientIsStillGoing(d, s, op, obs);
    assert |obs| > 1 ==> StmtAt(d, op, obs, 1) == Commit(Ok);
    assert |obs| == 1;
    assert ObsOk(d, s, op, obs, 0);
    var w := WritesAt(d, op, obs, 1);
    assert WritesAt(d, op, obs, 0) == NO_WRITES;
    assert w.reqs == map[op.request := obs[0].r.(status := Failed)];
    assert s.db.rows + map[] == s.db.rows;
    assert s.db.events + {} == s.db.events;
    assert s.db.log + [] == s.db.log;
    assert s.db.reqs + w.reqs == s.db.reqs[op.request := obs[0].r.(status := Failed)];
  }

  // Refunds

  predicate RefundScript(d: Directory, op: Op, obs: seq<Obs>)
    requires op.DoRefund?
  {
    && |obs| == 8
    && var q, t, m, c := RequestOf(obs[0]), TxnOf(obs[1]), RowOf(obs[2]), RowOf(obs[3]);
       && StmtAt(d, op, obs, 0) == ClaimRequest(op.request) && StmtAt(d, op, obs, 1) == ReadTxn(q.ref)
       && StmtAt(d, op, obs, 2) == ReadBalance(t.dst) && StmtAt(d, op, obs, 3) == ReadBalance(t.src)
       && StmtAt(d, op, obs, 4) == UpdateRow(t.dst, Change(m, m.bal - t.amount, m.credit, m.debit))
       && StmtAt(d, op, obs, 5) == UpdateRow(t.src, Change(c, c.bal + t.amount, c.credit, c.debit))
       && StmtAt(d, op, obs, 6) == InsertTxn(RefundTxn(op, t)) && StmtAt(d, op, obs, 7) == CompleteRequest(op.request)
       && StmtAt(d, op, obs, 8) == Commit(Ok)
       && t.amount <= m.bal
  }

  lemma RefundFollowsScript(d: Directory, op: Op, obs: seq<Obs>)
    requires op.DoRefund? && StillGoing(d, op, obs) && StmtAt(d, op, obs, |obs|).Commit?
    ensures RefundScript(d, op, obs)
  {
    hide Updated;
    hide RefundTxn;
    assert |obs| > 8 ==> StmtAt(d, op, obs, 8) == Commit(Ok);
  }

  lemma RefundWrites(d: Directory, op: Op, obs: seq<Obs>)
    requires op.DoRefund? && RefundScript(d, op, obs)
    ensures var q, t, m, c := RequestOf(obs[0]), TxnOf(obs[1]), RowOf(obs[2]), RowOf(obs[3]);
            && WritesAt(d, op, obs, 8)
               == Delta(TwoRows(t.dst, Change(m, m.bal - t.amount, m.credit, m.debit),
                                t.src, Change(c, c.bal + t.amount, c.credit, c.debit)),
                        [RefundTxn(op, t)], {}, map[op.request := q.(status := Completed)])
            && WritesAt(d, op, obs, 5).rows.Keys == {t.dst}
  {
    hide StmtAt;
    hide Updated;
    hide RefundTxn;
    var q, t := RequestOf(obs[0]), TxnOf(obs[1]);
    var claimed := Delta(map[], [], {}, map[op.request := q.(status := Processing)]);
    assert WritesAt(d, op, obs, 1) == claimed;
    assert WritesAt(d, op, obs, 2) == claimed;
    assert WritesAt(d, op, obs, 3) == claimed;
    assert WritesAt(d, op, obs, 4) == claimed;
    assert WritesAt(d, op, obs, 5).rows.Keys == {t.dst};
    assert WritesAt(d, op, obs, 6).reqs == claimed.reqs;
    assert WritesAt(d, op, obs, 7).log == [RefundTxn(op, t)];
  }

  lemma RefundFacts(d: Directory, s: Sys, op: Op, obs: seq<Obs>)
    requires op.DoRefund? && Serialized(d, s) && ClientOk(d, s, Running(op, obs)) && RefundScript(d, op, obs)
    ensures var q, t := RequestOf(obs[0]), TxnOf(obs[1]);
            && op.request in s.db.reqs && s.db.reqs[op.request] == q && q.status == Pending
            && Find(s.db.log, q.ref) == Some(t) && t.dst != t.src
            && t.dst in s.db.rows && t.src in s.db.rows
            && s.db.rows[t.dst] == RowOf(obs[2]) && s.db.rows[t.src] == RowOf(obs[3])
            && CanInsert(s.db.log, RefundTxn(op, t))
  {
    hide StmtAt;
    hide WritesAt;
    hide RowAsOf;
    hide Serialized;
    hide WritesOk;
    hide Updated;
    hide RefundTxn;
    hide CanInsert;
    var t, m, c := TxnOf(obs[1]), RowOf(obs[2]), RowOf(obs[3]);
    assert ObsOk(d, s, op, obs, 0) && ObsOk(d, s, op, obs, 1) && ObsOk(d, s, op, obs, 2) && ObsOk(d, s, op, obs, 3);
    assert ObsOk(d, s, op, obs, 5);
    RefundWrites(d, op, obs);
    var w := WritesAt(d, op, obs, 8);
    WrittenRowIsFresh(d, s, obs[2].at, t.dst, m, w);
    WrittenRowIsFresh(d, s, obs[3].at, t.src, c, w);
    LoggedIsNew(s.db, w, RefundTxn(op, t));
  }

  /** The writes of a refund, merged, are its serial effect. */
  lemma RefundEffect(db: State, op: Op, t: Txn)
    requires op.DoRefund? && op.request in db.reqs && db.reqs[op.request].status == Pending
    requires Find(db.log, db.reqs[op.request].ref) == Some(t) && t.dst != t.src
    requires t.dst in db.rows && t.src in db.rows && t.amount <= db.rows[t.dst].bal
    requires CanInsert(db.log, RefundTxn(op, t))
    ensures var q, m, c := db.reqs[op.request], db.rows[t.dst], db.rows[t.src];
            ApplyRefund(db, op)
            == Committed(Merge(db, Delta(TwoRows(t.dst, Change(m, m.bal - t.amount, m.credit, m.debit),
                                                 t.src, Change(c, c.bal + t.amount, c.credit, c.debit)),
                                         [RefundTxn(op, t)], {}, map[op.request := q.(status := Completed)])), Ok)
  {
    hide Updated;
    hide RefundTxn;
    hide TwoRows;
    hide CanInsert;
    var q, m, c := db.reqs[op.request], db.rows[t.dst], db.rows[t.src];
    MergeTwoRows(db.rows, t.dst, Change(m, m.bal - t.amount, m.credit, m.debit),
                 t.src, Change(c, c.bal + t.amount, c.credit, c.debit));
    assert db.events + {} == db.events;
    assert db.reqs + map[op.request := q.(status := Completed)] == db.reqs[op.request := q.(status := Completed)];
  }

  lemma RefundCommits(d: Directory, s: Sys, op: Op, obs: seq<Obs>)
    requires op.DoRefund? && Serialized(d, s) && ClientOk(d, s, Running(op, obs)) && StmtAt(d, op, obs, |obs|).Commit?
    ensures Apply(d, s.db, op) == Committed(Merge(s.db, WritesAt(d, op, obs, |obs|)), StmtAt(d, op, obs, |obs|).reply)
  {
    hide StmtAt;
    hide WritesAt;
    hide ClientOk;
    hide Serialized;
    hide Updated;
    hide CanInsert;
    hide TwoRows;
    hide RefundTxn;
    hide ApplyRefund;
    hide Merge;
    ClientIsStillGoing(d, s, op, obs);
    RefundFollowsScript(d, op, obs);
    RefundFacts(d, s, op, obs);
    RefundWrites(d, op, obs);
    RefundEffect(s.db, op, TxnOf(obs[1]));
  }

  /** Whatever others did meanwhile, a commit is the serial operation on the database it finds. */
  lemma CommitIsSerial(d: Directory, s: Sys, op: Op, obs: seq<Obs>)
    requires Serialized(d, s) && ClientOk(d, s, Running(op, obs)) && StmtAt(d, op, obs, |obs|).Commit?
    ensures Apply(d, s.db, op) == Committed(Merge(s.db, WritesAt(d, op, obs, |obs|)), StmtAt(d, op, obs, |obs|).reply)
  {
    hide StmtAt;
    hide WritesAt;
    hide ClientOk;
    hide Serialized;
    hide Apply;
    match op
    case DoTopup(_, _, _, _, _) => TopupCommits(d, s, op, obs);
    case DoTopupWebhook(_, _, _, _, _, _, _) => WebhookCommits(d, s, op, obs);
    case DoWithdraw(_, _, _, _, _) => WithdrawCommits(d, s, op, obs);
    case DoPayoutWebhook(_, _, _, _, _, _, _) => WebhookCommits(d, s, op, obs);
    case DoTransfer(_, _, _, _, _, _) => TransferCommits(d, s, op, obs);
    case DoPay(_, _, _, _, _, _, _, _) => PayCommits(d, s, op, obs);
    case DoRequestRefund(_, _, _) => RequestRefundCommits(d, s, op, obs);
    case DoRefund(_, _, _) => RefundCommits(d, s, op, obs);
    case DoMarkFailed(_) => MarkFailedCommits(d, s, op, obs);
  }
}
