// The concurrent system, statement by statement: any number of clients, each running one operation.
//
// A client's reads go to the committed tables: the balance getters bypass the open transaction, and
// no operation reads a table it has already written (lemma ReadsComeFirst), so the reads that do run
// inside the transaction see committed data as well. Writes stay private until commit. A written row
// or key is locked: another client's write to it waits. Isolation is Read Committed, so two reads of
// one client may see different committed states.
module Protocol {
  import opened Base
  import opened Ledger
  import opened Serial

  /** An UPDATE as it is sent: the row it was computed from, whose version it expects, and the new amounts. */
  datatype Change = Change(read: Row, bal: int, credit: int, debit: int)

  /** The row it leaves. */
  function Stored(c: Change): Row {
    Updated(c.read, c.bal, c.credit, c.debit)
  }

  datatype Stmt =
    | ReadBalance(id: BalanceId)
    | CheckBalance(id: BalanceId)
    | ReadTxn(ref: string)
    | InsertTxn(t: Txn)
    | UpdateRow(id: BalanceId, change: Change)
    | MarkEvent(event: (string, string))
    | ClaimRequest(q: Uuid)
    | CompleteRequest(q: Uuid)
    | CreateRequest(q: Uuid, r: Request)
    | FailRequest(q: Uuid)
    | Commit(reply: Reply)
    | Abort(reply: Reply)

  /** What a client has seen of its last statement; `at` counts the commits before a balance read. */
  datatype Obs = GotRow(row: Row, at: nat) | GotTxn(t: Txn) | GotRequest(r: Request) | Wrote

  function RowOf(o: Obs): Row {
    if o.GotRow? then o.row else Row(0, 0, 0, 0, "")
  }

  function TxnOf(o: Obs): Txn {
    if o.GotTxn? then o.t else Txn("", None, "", 0, "", "", Rejected, Topup, 0)
  }

  function RequestOf(o: Obs): Request {
    if o.GotRequest? then o.r else Request("", Failed, 0)
  }

  // ----- The programs: statement k of an operation, given what its first k statements returned -----

  /** The lookups by identity, email, user and merchant: no joined row is sql.ErrNoRows. */
  function Lookup(index: map<string, BalanceId>, key: string): Stmt {
    if key in index then ReadBalance(index[key]) else Abort(BalanceNotFound)
  }

  function TopupStmt(d: Directory, op: Op, obs: seq<Obs>, k: nat): Stmt
    requires op.DoTopup? && k <= |obs|
  {
    if MAX_TOPUP_AMOUNT < op.amount then Abort(MaxAmountExceeded)
    else if k == 0 then Lookup(d.identity, op.identity)
    else if op.identity !in d.identity then Abort(BalanceNotFound)
    else
      var b, r := d.identity[op.identity], RowOf(obs[0]);
      if k == 1 then CheckBalance(WORLD)
      else if k == 2 then InsertTxn(TopupTxn(op, b))
      else if k == 3 then UpdateRow(b, Change(r, r.bal, r.credit + op.amount, r.debit))
      else Commit(Ok)
  }

  function WithdrawStmt(d: Directory, op: Op, obs: seq<Obs>, k: nat): Stmt
    requires op.DoWithdraw? && k <= |obs|
  {
    if MAX_WITHDRAWAL_AMOUNT < op.amount then Abort(MaxAmountExceeded)
    else if k == 0 then Lookup(d.identity, op.identity)
    else if op.identity !in d.identity then Abort(BalanceNotFound)
    else
      var b, r := d.identity[op.identity], RowOf(obs[0]);
      if k == 1 then CheckBalance(WORLD)
      else if r.bal < op.amount then Abort(InsufficientBalance)
      else if k == 2 then InsertTxn(WithdrawTxn(op, b))
      else if k == 3 then UpdateRow(b, Change(r, r.bal - op.amount, r.credit, r.debit + op.amount))
      else Commit(Ok)
  }

  function SettledChange(op: Op, r: Row, amount: I64): Change
    requires IsWebhook(op)
  {
    if op.DoTopupWebhook? then
      Change(r, if NewStatus(op.report) == Applied then r.bal + amount else r.bal, r.credit - amount, r.debit)
    else
      Change(r, if NewStatus(op.report) == Void then r.bal + amount else r.bal, r.credit, r.debit - amount)
  }

  function WebhookStmt(op: Op, obs: seq<Obs>, k: nat): Stmt
    requires IsWebhook(op) && k <= |obs|
  {
    if k == 0 then ReadTxn(ParentRef(op))
    else
      var p := TxnOf(obs[0]);
      if p.status == Applied then Abort(AlreadyCompleted)
      else if p.status == Rejected || p.status == Void then Abort(AlreadyFailed)
      else if op.report != "succeeded" && op.report != "failed" then Abort(UnknownWebhookStatus)
      else if k == 1 then MarkEvent((op.source, op.event))
      else
        var b := SettledBalance(op, p);
        if k == 2 then ReadBalance(b)
        else if k == 3 then InsertTxn(SettleTxn(op, p))
        else if k == 4 then UpdateRow(b, SettledChange(op, RowOf(obs[2]), p.amount))
        else Commit(if NewStatus(op.report) == Void then GatewayFailure else Ok)
  }

  function TransferStmt(d: Directory, op: Op, obs: seq<Obs>, k: nat): Stmt
    requires op.DoTransfer? && k <= |obs|
  {
    if MAX_TRANSFER_AMOUNT < op.amount then Abort(MaxAmountExceeded)
    else if k == 0 then Lookup(d.identity, op.identity)
    else if op.identity !in d.identity then Abort(BalanceNotFound)
    else
      var a, x := d.identity[op.identity], RowOf(obs[0]);
      if x.bal < op.amount then Abort(InsufficientBalance)
      else if k == 1 then Lookup(d.email, op.email)
      else if op.email !in d.email then Abort(BalanceNotFound)
      else
        var b, y := d.email[op.email], RowOf(obs[1]);
        if a == b then Abort(SelfTransfer)
        else if y.ledger == MERCHANT_LEDGER then Abort(TransferToMerchant)
        else if k == 2 then InsertTxn(TransferTxn(op, a, b))
        else if k == 3 then UpdateRow(a, Change(x, x.bal - op.amount, x.credit, x.debit))
        else if k == 4 then UpdateRow(b, Change(y, y.bal + op.amount, y.credit, y.debit))
        else Commit(Ok)
  }

  function PayStmt(d: Directory, op: Op, obs: seq<Obs>, k: nat): Stmt
    requires op.DoPay? && k <= |obs|
  {
    if k == 0 then Lookup(d.user, op.user)
    else if op.user !in d.user then Abort(BalanceNotFound)
    else
      var a, x := d.user[op.user], RowOf(obs[0]);
      if x.bal < op.price then Abort(InsufficientBalance)
      else if k == 1 then Lookup(d.merchant, op.merchant)
      else if op.merchant !in d.merchant then Abort(BalanceNotFound)
      else
        var m, y := d.merchant[op.merchant], RowOf(obs[1]);
        if k == 2 then ReadBalance(REVENUE)
        else
          var z := RowOf(obs[2]);
          if k == 3 then InsertTxn(PayTxn(op, a, m))
          else if k == 4 then InsertTxn(FeeTxn(op, a))
          else if k == 5 then UpdateRow(a, Change(x, x.bal - op.price, x.credit, x.debit))
          else if k == 6 then UpdateRow(m, Change(y, y.bal + (op.price - Fee(op.price)), y.credit, y.debit))
          else if k == 7 then UpdateRow(REVENUE, Change(z, z.bal + Fee(op.price), z.credit, z.debit))
          else Commit(Ok)
  }

  function RequestRefundStmt(op: Op, obs: seq<Obs>, k: nat): Stmt
    requires op.DoRequestRefund? && k <= |obs|
  {
    if !IsPayment(op.ref) then Abort(NonRefundable)
    else if k == 0 then ReadTxn(op.ref)
    else
      var t := TxnOf(obs[0]);
      if t.status != Applied then Abort(NonRefundable)
      else if op.now - t.created > REFUND_WINDOW then Abort(NonRefundableExpired)
      else if k == 1 then CreateRequest(op.id, Request(op.ref, Pending, op.now))
      else Commit(Ok)
  }

  function RefundStmt(op: Op, obs: seq<Obs>, k: nat): Stmt
    requires op.DoRefund? && k <= |obs|
  {
    if k == 0 then ClaimRequest(op.request)
    else if k == 1 then ReadTxn(RequestOf(obs[0]).ref)
    else
      var t := TxnOf(obs[1]);
      if k == 2 then ReadBalance(t.dst)
      else if k == 3 then ReadBalance(t.src)
      else
        var m, c := RowOf(obs[2]), RowOf(obs[3]);
        if m.bal < t.amount then Abort(MerchantInsufficientBalance)
        else if k == 4 then UpdateRow(t.dst, Change(m, m.bal - t.amount, m.credit, m.debit))
        else if k == 5 then UpdateRow(t.src, Change(c, c.bal + t.amount, c.credit, c.debit))
        else if k == 6 then InsertTxn(RefundTxn(op, t))
        else if k == 7 then CompleteRequest(op.request)
        else Commit(Ok)
  }

  function StmtAt(d: Directory, op: Op, obs: seq<Obs>, k: nat): Stmt
    requires k <= |obs|
  {
    match op
    case DoTopup(_, _, _, _, _) => TopupStmt(d, op, obs, k)
    case DoTopupWebhook(_, _, _, _, _, _, _) => WebhookStmt(op, obs, k)
    case DoWithdraw(_, _, _, _, _) => WithdrawStmt(d, op, obs, k)
    case DoPayoutWebhook(_, _, _, _, _, _, _) => WebhookStmt(op, obs, k)
    case DoTransfer(_, _, _, _, _, _) => TransferStmt(d, op, obs, k)
    case DoPay(_, _, _, _, _, _, _, _) => PayStmt(d, op, obs, k)
    case DoRequestRefund(_, _, _) => RequestRefundStmt(op, obs, k)
    case DoRefund(_, _, _) => RefundStmt(op, obs, k)
    case DoMarkFailed(q) => if k == 0 then FailRequest(q) else Commit(Ok)
  }

  // ----- Private writes -----

  datatype Delta = Delta(
    rows: map<BalanceId, Change>, log: seq<Txn>, events: set<(string, string)>, reqs: map<Uuid, Request>)

  const NO_WRITES: Delta := Delta(map[], [], {}, map[])

  function StoredRows(rows: map<BalanceId, Change>): map<BalanceId, Row> {
    map id | id in rows :: Stored(rows[id])
  }

  /** The database as a transaction leaves it when its writes become visible. */
  function Merge(db: State, w: Delta): State {
    State(db.rows + StoredRows(w.rows), db.log + w.log, db.events + w.events, db.reqs + w.reqs)
  }

  function Write(w: Delta, stmt: Stmt, o: Obs): Delta {
    match stmt
    case InsertTxn(t) => w.(log := w.log + [t])
    case UpdateRow(id, c) => w.(rows := w.rows[id := c])
    case MarkEvent(e) => w.(events := w.events + {e})
    case ClaimRequest(q) => w.(reqs := w.reqs[q := RequestOf(o).(status := Processing)])
    case CompleteRequest(q) => if q in w.reqs then w.(reqs := w.reqs[q := w.reqs[q].(status := Completed)]) else w
    case CreateRequest(q, r) => w.(reqs := w.reqs[q := r])
    case FailRequest(q) => w.(reqs := w.reqs[q := RequestOf(o).(status := Failed)])
    case _ => w
  }

  /** The writes of the first k statements. */
  function WritesAt(d: Directory, op: Op, obs: seq<Obs>, k: nat): Delta
    requires k <= |obs|
  {
    if k == 0 then NO_WRITES
    else Write(WritesAt(d, op, obs, k - 1), StmtAt(d, op, obs, k - 1), obs[k - 1])
  }

  // ----- The system -----

  datatype Client =
    | Running(op: Op, obs: seq<Obs>)
    | Finished(op: Op, reply: Reply)
    | Lost(op: Op)

  datatype Sys = Sys(init: State, db: State, history: seq<Op>, clients: seq<Client>)

  function Uncommitted(d: Directory, c: Client): Delta {
    if c.Running? then WritesAt(d, c.op, c.obs, |c.obs|) else NO_WRITES
  }

  /** stmt does not have to wait for a client whose uncommitted writes are w. */
  predicate NotBlocked(stmt: Stmt, w: Delta) {
    match stmt
    case InsertTxn(t) => CanInsert(w.log, t)
    case UpdateRow(id, _) => id !in w.rows
    case MarkEvent(e) => e !in w.events
    case ClaimRequest(q) => q !in w.reqs
    case FailRequest(q) => q !in w.reqs
    case CreateRequest(q, r) => q !in w.reqs && forall u | u in w.reqs :: w.reqs[u].ref != r.ref
    case _ => true
  }

  /** Does the statement find what it needs? Own writes count: a second update sees the first. */
  predicate Succeeds(db: State, w: Delta, stmt: Stmt) {
    match stmt
    case ReadBalance(id) => id in db.rows
    case CheckBalance(id) => id in db.rows
    case ReadTxn(ref) => Find(db.log, ref).Some?
    case InsertTxn(t) => CanInsert(db.log, t) && CanInsert(w.log, t)
    case UpdateRow(id, c) =>
      if id in w.rows then w.rows[id].read.version + 1 == c.read.version
      else id in db.rows && db.rows[id].version == c.read.version
    case MarkEvent(e) => e !in db.events && e !in w.events
    case ClaimRequest(q) => q in db.reqs && db.reqs[q].status == Pending
    case CompleteRequest(q) => true
    case CreateRequest(q, r) => q !in db.reqs && !HasPending(db.reqs, r.ref)
    case FailRequest(q) => q in db.reqs
    case Commit(_) => false
    case Abort(_) => false
  }

  function Result(s: Sys, w: Delta, stmt: Stmt): Obs
    requires Succeeds(s.db, w, stmt)
  {
    match stmt
    case ReadBalance(id) => GotRow(s.db.rows[id], |s.history|)
    case ReadTxn(ref) => GotTxn(Find(s.db.log, ref).value)
    case ClaimRequest(q) => GotRequest(s.db.reqs[q])
    case FailRequest(q) => GotRequest(s.db.reqs[q])
    case _ => Wrote
  }

  /** The error a statement that fails makes the operation return. */
  function Failure(stmt: Stmt): Reply {
    match stmt
    case ReadBalance(_) => BalanceNotFound
    case CheckBalance(_) => BalanceNotFound
    case ReadTxn(_) => TransactionNotFound
    case InsertTxn(_) => UniqueViolation
    case UpdateRow(_, _) => OptimisticLock
    case MarkEvent(_) => WebhookAlreadyProcessed
    case ClaimRequest(_) => NoPendingRequests
    case CreateRequest(_, _) => UniqueViolation
    case Abort(reply) => reply
    case _ => Ok
  }

  /** SKIP LOCKED: a request is up for claiming while nobody holds it. */
  predicate Claimable(d: Directory, s: Sys, q: Uuid) {
    && q in s.db.reqs && s.db.reqs[q].status == Pending
    && forall c | c in s.clients :: q !in Uncommitted(d, c).reqs
  }

  /** ORDER BY created_at LIMIT 1; op.request foretells which of the oldest the database picks. */
  predicate Picks(d: Directory, s: Sys, q: Uuid) {
    && Claimable(d, s, q)
    && forall u | u in s.db.reqs && Claimable(d, s, u) :: s.db.reqs[q].created <= s.db.reqs[u].created
  }

  predicate Enabled(d: Directory, s: Sys, i: nat, stmt: Stmt)
    requires i < |s.clients|
  {
    && (forall j | 0 <= j < |s.clients| && j != i :: NotBlocked(stmt, Uncommitted(d, s.clients[j])))
    && (stmt.ClaimRequest? ==> Picks(d, s, stmt.q) || !exists u | u in s.db.reqs :: Claimable(d, s, u))
  }

  /** Client i executes its next statement. */
  predicate Executes(d: Directory, s: Sys, s': Sys, i: nat) {
    && i < |s.clients| && s.clients[i].Running?
    && var Running(op, obs) := s.clients[i];
       var stmt := StmtAt(d, op, obs, |obs|);
       var w := Uncommitted(d, s.clients[i]);
       && Enabled(d, s, i, stmt)
       && if stmt.Commit? then
            s' == s.(db := Merge(s.db, w), history := s.history + [op],
                     clients := s.clients[i := Finished(op, stmt.reply)])
          else if Succeeds(s.db, w, stmt) then
            s' == s.(clients := s.clients[i := Running(op, obs + [Result(s, w, stmt)])])
          else
            s' == s.(clients := s.clients[i := Finished(op, Failure(stmt))])
  }

  /** A crash, a timeout or a deadlock victim: the transaction is rolled back. */
  predicate Loses(s: Sys, s': Sys, i: nat) {
    && i < |s.clients| && s.clients[i].Running?
    && s' == s.(clients := s.clients[i := Lost(s.clients[i].op)])
  }

  /** A call arrives; a request is only marked failed by a worker whose refund of it found no funds. */
  predicate Arrives(s: Sys, s': Sys, op: Op) {
    && s' == s.(clients := s.clients + [Running(op, [])])
    && (op.DoMarkFailed? ==>
          exists c | c in s.clients ::
            c.Finished? && c.reply == MerchantInsufficientBalance && c.op.DoRefund? && c.op.request == op.request)
  }

  ghost predicate Step(d: Directory, s: Sys, s': Sys) {
    || (exists i: nat :: Executes(d, s, s', i))
    || (exists i: nat :: Loses(s, s', i))
    || (exists op :: Arrives(s, s', op))
  }

  predicate Initial(s: Sys) {
    s.db == s.init && s.history == [] && s.clients == []
  }

  /** A run of the system: any interleaving of any number of clients. */
  ghost predicate Run(d: Directory, trace: seq<Sys>) {
    trace != [] && Initial(trace[0]) && forall k | 0 <= k < |trace| - 1 :: Step(d, trace[k], trace[k + 1])
  }
}
