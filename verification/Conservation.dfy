// Conservation over every run: money enters by applied top-ups and leaves by applied withdrawals.
module Conservation {
  import opened Base
  import opened Ledger
  import opened Serial
  import opened Entries
  import opened View
  import opened Versions

  predicate NoDuplicates(ids: seq<BalanceId>) {
    forall i, j | 0 <= i < j < |ids| :: ids[i] != ids[j]
  }

  /** ids lists every balance once. */
  ghost predicate Enumerates(ids: seq<BalanceId>, keys: set<BalanceId>) {
    NoDuplicates(ids) && forall b :: b in ids <==> b in keys
  }

  lemma Enumerate(keys: set<BalanceId>) returns (ids: seq<BalanceId>)
    ensures Enumerates(ids, keys)
  {
    ids := [];
    if keys != {} {
      var b :| b in keys;
      var rest := Enumerate(keys - {b});
      ids := rest + [b];
    }
  }

  /** The fold of the log, summed over the balances. */
  function Over(ids: seq<BalanceId>, f: Field, log: seq<Txn>): int {
    if ids == [] then 0 else Over(ids[..|ids| - 1], f, log) + Sum(f, log, ids[|ids| - 1])
  }

  /** The column itself, summed over the balances. */
  function ColumnTotal(ids: seq<BalanceId>, f: Field, rows: map<BalanceId, Row>): int
    requires forall b | b in ids :: b in rows
  {
    if ids == [] then 0
    else ColumnTotal(ids[..|ids| - 1], f, rows) + Get(f, rows[ids[|ids| - 1]])
  }

  /** What one entry adds to a field, summed over the balances. */
  function SpreadOver(ids: seq<BalanceId>, f: Field, t: Txn): int {
    if ids == [] then 0 else SpreadOver(ids[..|ids| - 1], f, t) + Share(f, t, ids[|ids| - 1])
  }

  lemma {:induction false} OverSnoc(ids: seq<BalanceId>, f: Field, log: seq<Txn>, t: Txn)
    ensures Over(ids, f, log + [t]) == Over(ids, f, log) + SpreadOver(ids, f, t)
  {
    if ids != [] {
      OverSnoc(ids[..|ids| - 1], f, log, t);
      SumSnoc(f, log, t, ids[|ids| - 1]);
    }
  }

  /** Each side of an entry lands on exactly one balance. */
  lemma {:induction false} SpreadIsBothSides(ids: seq<BalanceId>, f: Field, t: Txn)
    requires NoDuplicates(ids)
    ensures SpreadOver(ids, f, t)
            == (if t.dst in ids then ToDst(f, t) else 0) + (if t.src in ids then ToSrc(f, t) else 0)
  {
    if ids != [] {
      var n := |ids| - 1;
      SpreadIsBothSides(ids[..n], f, t);
      assert ids == ids[..n] + [ids[n]];
      assert ids[n] !in ids[..n];
    }
  }

  /** What an entry brings into the system: an applied top-up its amount, an applied withdrawal minus that. */
  function External(t: Txn): int {
    if t.status != Applied then 0
    else match t.kind
      case Topup => t.amount
      case Withdrawal => -(t.amount as int)
      case _ => 0
  }

  function NetInflow(log: seq<Txn>): int {
    if log == [] then 0 else NetInflow(log[..|log| - 1]) + External(log[|log| - 1])
  }

  /** In unbounded integers: balances plus in-flight debits are the net inflow. */
  lemma {:induction false} FoldsConserve(keys: set<BalanceId>, ids: seq<BalanceId>, all: seq<Txn>, log: seq<Txn>)
    requires LogOk(keys, all) && log <= all && Enumerates(ids, keys) && WORLD in keys && REVENUE in keys
    ensures Over(ids, Bal, log) + Over(ids, Debit, log) == NetInflow(log)
    decreases |log|
  {
    if log == [] {
      EmptyLog(ids, Bal);
      EmptyLog(ids, Debit);
    } else {
      var n := |log| - 1;
      FoldsConserve(keys, ids, all, log[..n]);
      var t := log[n];
      assert t in all && EntryOk(keys, all, t);
      assert log == log[..n] + [t];
      OverSnoc(ids, Bal, log[..n], t);
      OverSnoc(ids, Debit, log[..n], t);
      SpreadIsBothSides(ids, Bal, t);
      SpreadIsBothSides(ids, Debit, t);
    }
  }

  lemma {:induction false} EmptyLog(ids: seq<BalanceId>, f: Field)
    ensures Over(ids, f, []) == 0
  {
    if ids != [] { EmptyLog(ids[..|ids| - 1], f); }
  }

  /** Summing columns and summing folds agree modulo 2^64. */
  lemma {:induction false} ColumnsFollowFolds(ids: seq<BalanceId>, f: Field, s: State)
    requires InView(s) && forall b | b in ids :: b in s.rows
    ensures Int64(ColumnTotal(ids, f, s.rows)) == Int64(Over(ids, f, s.log))
  {
    hide Wraps;
    if ids != [] {
      var n := |ids| - 1;
      ColumnsFollowFolds(ids[..n], f, s);
      var x, y := ColumnTotal(ids[..n], f, s.rows), Over(ids[..n], f, s.log);
      var u := Sum(f, s.log, ids[n]);
      assert Get(f, s.rows[ids[n]]) == Int64(u);
      Int64Add(u, x);
      Int64Add(x, u);
      Int64Add(y, u);
    }
  }

  /** The columns of every reachable database conserve money, modulo their 64 bits. */
  lemma ReachableConserves(d: Directory, init: State, ops: seq<Op>, ids: seq<BalanceId>)
    requires DirectoryOk(d) && Fresh(init) && Enumerates(ids, init.rows.Keys)
    ensures var s := RunAll(d, init, ops);
            && s.rows.Keys == init.rows.Keys
            && Int64(ColumnTotal(ids, Bal, s.rows) + ColumnTotal(ids, Debit, s.rows)) == Int64(NetInflow(s.log))
  {
    hide LogOk;
    hide RequestOk;
    hide Over;
    hide ColumnTotal;
    hide Int64;
    hide Wraps;
    hide RunAll;
    BalancesAreViewOfLog(d, init, ops);
    RunKeepsInv(d, init, ops);
    var s := RunAll(d, init, ops);
    FoldsConserve(s.rows.Keys, ids, s.log, s.log);
    ColumnsFollowFolds(ids, Bal, s);
    ColumnsFollowFolds(ids, Debit, s);
    var x, y := ColumnTotal(ids, Bal, s.rows), ColumnTotal(ids, Debit, s.rows);
    var u, v := Over(ids, Bal, s.log), Over(ids, Debit, s.log);
    Int64Add(x, y);
    Int64Add(y, Int64(u));
    Int64Add(u, Int64(v));
    Int64Add(v, u);
  }

  /** @World stands on one side of every top-up and withdrawal, yet its row is never written. */
  lemma {:induction false} WorldNeverWritten(d: Directory, init: State, ops: seq<Op>)
    requires DirectoryOk(d) && Inv(init)
    ensures WORLD in RunAll(d, init, ops).rows && RunAll(d, init, ops).rows[WORLD] == init.rows[WORLD]
    decreases |ops|
  {
    hide Apply;
    if ops != [] {
      var n := |ops| - 1;
      WorldNeverWritten(d, init, ops[..n]);
      RunKeepsInv(d, init, ops[..n]);
      var mid := RunAll(d, init, ops[..n]);
      if Apply(d, mid, ops[n]).Committed? {
        ApplyVersions(d, mid, ops[n], WORLD);
        WritesNoWorld(d, mid, ops[n]);
      }
    }
  }

  lemma WritesNoWorld(d: Directory, s: State, op: Op)
    requires DirectoryOk(d) && Inv(s) && Apply(d, s, op).Committed?
    ensures WORLD !in WriteSet(d, s, op)
  {
    hide LogOk;
    hide CanInsert;
    hide Updated;
    hide SettledRow;
    if IsWebhook(op) {
      var _ := DeliverySettlesItsOwnKind(s, op);
    } else if op.DoRefund? {
      RefundableIsMove(s, Find(s.log, s.reqs[op.request].ref).value);
    }
  }
}
