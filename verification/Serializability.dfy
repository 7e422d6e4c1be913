// Every interleaving of the concurrent system leaves the database its committed operations would
// leave if they ran one at a time, in commit order.
module Serializability {
  import opened Base
  import opened Ledger
  import opened Serial
  import opened Versions
  import opened Protocol
  import opened Commits

  // ----- Programs only look back -----

  lemma StmtPrefix(d: Directory, op: Op, obs: seq<Obs>, o: Obs, k: nat)
    requires k <= |obs|
    ensures StmtAt(d, op, obs + [o], k) == StmtAt(d, op, obs, k)
  {
    hide Updated;
    hide SettledRow;
    hide SettleTxn;
    hide RefundTxn;
    hide ParentRef;
    hide IsPayment;
    hide Fee;
  }

  lemma {:induction false} WritesPrefix(d: Directory, op: Op, obs: seq<Obs>, o: Obs, k: nat)
    requires k <= |obs|
    ensures WritesAt(d, op, obs + [o], k) == WritesAt(d, op, obs, k)
  {
    hide StmtAt;
    if k > 0 {
      WritesPrefix(d, op, obs, o, k - 1);
      StmtPrefix(d, op, obs, o, k - 1);
    }
  }

  /** Every update is computed from a row read earlier, and expects that row's version. */
  lemma UpdateUsesRead(d: Directory, op: Op, obs: seq<Obs>, k: nat) returns (j: nat)
    requires k <= |obs| && StmtAt(d, op, obs, k).UpdateRow?
    ensures j < k && StmtAt(d, op, obs, j) == ReadBalance(StmtAt(d, op, obs, k).id)
    ensures StmtAt(d, op, obs, k).change.read == RowOf(obs[j])
  {
    hide SettleTxn;
    hide ParentRef;
    j := match op
      case DoTopup(_, _, _, _, _) => 0
      case DoTopupWebhook(_, _, _, _, _, _, _) => 2
      case DoWithdraw(_, _, _, _, _) => 0
      case DoPayoutWebhook(_, _, _, _, _, _, _) => 2
      case DoTransfer(_, _, _, _, _, _) => if k == 3 then 0 else 1
      case DoPay(_, _, _, _, _, _, _, _) => if k == 5 then 0 else if k == 6 then 1 else 2
      case DoRefund(_, _, _) => if k == 4 then 2 else 3
      case _ => 0;
  }

  /** The claim a refund works under stays its own until it completes it. */
  lemma {:induction false} ClaimStays(d: Directory, op: Op, obs: seq<Obs>, k: nat)
    requires op.DoRefund? && 1 <= k <= 7 && k <= |obs|
    ensures WritesAt(d, op, obs, k).reqs == map[op.request := RequestOf(obs[0]).(status := Processing)]
  {
    hide Updated;
    hide RefundTxn;
    if k == 1 {
      assert WritesAt(d, op, obs, 0) == NO_WRITES;
    } else {
      ClaimStays(d, op, obs, k - 1);
    }
  }

  /** Written request rows stay written. */
  lemma {:induction false} RequestStaysHeld(d: Directory, op: Op, obs: seq<Obs>, k: nat, n: nat)
    requires k < n <= |obs|
    requires StmtAt(d, op, obs, k).ClaimRequest? || StmtAt(d, op, obs, k).FailRequest?
    ensures StmtAt(d, op, obs, k).q in WritesAt(d, op, obs, n).reqs
    decreases n
  {
    hide StmtAt;
    if n > k + 1 {
      RequestStaysHeld(d, op, obs, k, n - 1);
    }
  }

  // ----- One client takes a step -----

  /** Updating a balance twice in one transaction fails: the second update expects a stale version. */
  lemma SecondUpdateFails(d: Directory, s: Sys, op: Op, obs: seq<Obs>)
    requires Serialized(d, s) && ClientOk(d, s, Running(op, obs))
    requires StmtAt(d, op, obs, |obs|).UpdateRow?
    requires StmtAt(d, op, obs, |obs|).id in WritesAt(d, op, obs, |obs|).rows
    ensures !Succeeds(s.db, WritesAt(d, op, obs, |obs|), StmtAt(d, op, obs, |obs|))
  {
    hide StmtAt;
    hide WritesAt;
    hide HasPending;
    var j := UpdateUsesRead(d, op, obs, |obs|);
    assert ObsOk(d, s, op, obs, j);
    VersionDeterminesRow(d, s.init, s.history, obs[j].at, StmtAt(d, op, obs, |obs|).id);
  }

  /** The claim is still held when the refund completes its request. */
  lemma CompleteIsClaimed(d: Directory, op: Op, obs: seq<Obs>)
    requires StmtAt(d, op, obs, |obs|).CompleteRequest?
    ensures var q := StmtAt(d, op, obs, |obs|).q;
            var w := WritesAt(d, op, obs, |obs|);
            q in w.reqs && w.reqs[q].status == Processing
  {
    hide WritesAt;
    hide Updated;
    hide SettledRow;
    ClaimStays(d, op, obs, |obs|);
  }

  /** What the programs keep to when they write. */
  predicate Sensible(w: Delta, stmt: Stmt) {
    match stmt
    case UpdateRow(id, _) => id !in w.rows
    case CompleteRequest(q) => q in w.reqs && w.reqs[q].status == Processing
    case CreateRequest(_, r) => r.status == Pending
    case _ => true
  }

  lemma NextIsSensible(d: Directory, s: Sys, op: Op, obs: seq<Obs>)
    requires Serialized(d, s) && ClientOk(d, s, Running(op, obs))
    requires Succeeds(s.db, WritesAt(d, op, obs, |obs|), StmtAt(d, op, obs, |obs|))
    ensures Sensible(WritesAt(d, op, obs, |obs|), StmtAt(d, op, obs, |obs|))
  {
    hide Succeeds;
    hide Serialized;
    hide ClientOk;
    hide StmtAt;
    hide WritesAt;
    var stmt := StmtAt(d, op, obs, |obs|);
    if stmt.UpdateRow? && stmt.id in WritesAt(d, op, obs, |obs|).rows {
      SecondUpdateFails(d, s, op, obs);
    } else if stmt.CompleteRequest? {
      CompleteIsClaimed(d, op, obs);
    } else if stmt.CreateRequest? {
      CreatedIsPending(d, op, obs);
    }
  }

  lemma CreatedIsPending(d: Directory, op: Op, obs: seq<Obs>)
    requires StmtAt(d, op, obs, |obs|).CreateRequest?
    ensures StmtAt(d, op, obs, |obs|).r.status == Pending
  {
    hide Updated;
    hide SettledRow;
  }

  lemma ResultHolds(d: Directory, s: Sys, stmt: Stmt, w: Delta)
    requires Serialized(d, s) && !stmt.Commit? && Succeeds(s.db, w, stmt) && Sensible(w, stmt)
    ensures Holds(d, s, stmt, w, Result(s, w, stmt))
  {
    hide HasPending;
    hide CanInsert;
    hide AllCommit;
    RunKeepsKeys(d, s.init, s.history);
    assert s.history[..|s.history|] == s.history;
  }

  lemma WriteStaysOk(s: Sys, w: Delta, stmt: Stmt)
    requires WritesOk(s.db, w) && Succeeds(s.db, w, stmt) && Sensible(w, stmt)
    ensures WritesOk(s.db, Write(w, stmt, Result(s, w, stmt)))
  {
  }

  /** What was observed before the step still holds after it. */
  lemma OldObsOk(d: Directory, s: Sys, op: Op, obs: seq<Obs>, o: Obs, k: nat)
    requires k < |obs| && ObsOk(d, s, op, obs, k)
    ensures ObsOk(d, s, op, obs + [o], k)
  {
    hide Holds;
    hide StmtAt;
    hide WritesAt;
    StmtPrefix(d, op, obs, o, k);
    WritesPrefix(d, op, obs, o, k);
  }

  /** A statement that succeeds leaves its client as well informed as before. */
  lemma StepKeepsClient(d: Directory, s: Sys, op: Op, obs: seq<Obs>)
    requires Serialized(d, s) && ClientOk(d, s, Running(op, obs))
    requires var stmt := StmtAt(d, op, obs, |obs|);
             !stmt.Commit? && Succeeds(s.db, WritesAt(d, op, obs, |obs|), stmt)
    ensures var stmt := StmtAt(d, op, obs, |obs|);
            var w := WritesAt(d, op, obs, |obs|);
            var o := Result(s, w, stmt);
            ClientOk(d, s, Running(op, obs + [o])) && WritesAt(d, op, obs + [o], |obs| + 1) == Write(w, stmt, o)
  {
    hide Serialized;
    hide Succeeds;
    hide Result;
    hide Holds;
    hide StmtAt;
    hide Write;
    hide WritesOk;
    hide Sensible;
    var stmt := StmtAt(d, op, obs, |obs|);
    var w := WritesAt(d, op, obs, |obs|);
    var o := Result(s, w, stmt);
    NextIsSensible(d, s, op, obs);
    ResultHolds(d, s, stmt, w);
    WriteStaysOk(s, w, stmt);
    StmtPrefix(d, op, obs, o, |obs|);
    WritesPrefix(d, op, obs, o, |obs|);
    forall k | 0 <= k < |obs| + 1 ensures ObsOk(d, s, op, obs + [o], k) {
      if k < |obs| {
        OldObsOk(d, s, op, obs, o, k);
      }
    }
  }

  /** Waiting for locks keeps uncommitted writes apart. */
  lemma WriteStaysDisjoint(s: Sys, w: Delta, stmt: Stmt, x: Delta)
    requires Disjoint(w, x) && Disjoint(x, w) && NotBlocked(stmt, x) && Succeeds(s.db, w, stmt) && Sensible(w, stmt)
    ensures Disjoint(Write(w, stmt, Result(s, w, stmt)), x) && Disjoint(x, Write(w, stmt, Result(s, w, stmt)))
  {
    hide HasPending;
  }

  // ----- Another client commits -----

  lemma OthersStayOk(db: State, w: Delta, x: Delta)
    requires WritesOk(db, w) && WritesOk(db, x) && Disjoint(w, x)
    ensures WritesOk(Merge(db, x), w)
  {
  }

  lemma HoldsAfterCommit(d: Directory, s: Sys, s': Sys, op: Op, x: Delta, stmt: Stmt, w: Delta, o: Obs)
    requires Holds(d, s, stmt, w, o) && s'.init == s.init && s'.history == s.history + [op] && s'.db == Merge(s.db, x)
    requires stmt.ClaimRequest? || stmt.FailRequest? ==> stmt.q !in x.reqs
    ensures Holds(d, s', stmt, w, o)
  {
    hide CanInsert;
    match stmt
    case ReadBalance(id) => assert s'.history[..o.at] == s.history[..o.at];
    case ReadTxn(ref) => FindAppend(s.db.log, x.log, ref);
    case _ =>
  }

  /** What a client knows survives the commits of others. */
  lemma CommitKeepsOthers(d: Directory, s: Sys, s': Sys, other: Op, x: Delta, op: Op, obs: seq<Obs>)
    requires ClientOk(d, s, Running(op, obs)) && WritesOk(s.db, x) && Disjoint(WritesAt(d, op, obs, |obs|), x)
    requires s'.init == s.init && s'.history == s.history + [other] && s'.db == Merge(s.db, x)
    ensures ClientOk(d, s', Running(op, obs))
  {
    hide Holds;
    hide StmtAt;
    hide WritesAt;
    hide WritesOk;
    hide CanInsert;
    OthersStayOk(s.db, WritesAt(d, op, obs, |obs|), x);
    forall k | 0 <= k < |obs| ensures ObsOk(d, s', op, obs, k) {
      assert ObsOk(d, s, op, obs, k);
      var stmt := StmtAt(d, op, obs, k);
      if stmt.ClaimRequest? || stmt.FailRequest? {
        RequestStaysHeld(d, op, obs, k, |obs|);
      }
      HoldsAfterCommit(d, s, s', other, x, stmt, WritesAt(d, op, obs, k), obs[k]);
    }
  }

  lemma CommitKeepsSerialized(d: Directory, s: Sys, s': Sys, op: Op, obs: seq<Obs>)
    requires Serialized(d, s) && ClientOk(d, s, Running(op, obs)) && StmtAt(d, op, obs, |obs|).Commit?
    requires s'.init == s.init && s'.history == s.history + [op]
    requires s'.db == Merge(s.db, WritesAt(d, op, obs, |obs|))
    ensures Serialized(d, s')
  {
    hide StmtAt;
    hide WritesAt;
    hide ClientOk;
    hide Merge;
    hide Apply;
    CommitIsSerial(d, s, op, obs);
    RunAllSnoc(d, s.init, s.history, op);
    forall k | 0 <= k < |s'.history| ensures Apply(d, RunAll(d, s.init, s'.history[..k]), s'.history[k]).Committed? {
      assert s'.history[..k] == s.history[..k];
      if k == |s.history| { assert s'.history[..k] == s.history; }
    }
  }

  // ----- Steps of the system -----

  lemma ClientsOnly(d: Directory, s: Sys, clients: seq<Client>, c: Client)
    requires ClientOk(d, s, c)
    ensures ClientOk(d, s.(clients := clients), c)
  {
    hide WritesAt;
    hide StmtAt;
    hide WritesOk;
    if c.Running? {
      forall k | 0 <= k < |c.obs| ensures ObsOk(d, s.(clients := clients), c.op, c.obs, k) {
        assert ObsOk(d, s, c.op, c.obs, k);
      }
    }
  }

  /** Client i moves on and the database stays. */
  lemma ReplacedKeepsOk(d: Directory, s: Sys, i: nat, c: Client)
    requires SysOk(d, s) && i < |s.clients| && ClientOk(d, s, c)
    requires forall j | 0 <= j < |s.clients| && j != i ::
      var w, x := Uncommitted(d, c), Uncommitted(d, s.clients[j]); Disjoint(w, x) && Disjoint(x, w)
    ensures SysOk(d, s.(clients := s.clients[i := c]))
  {
    hide Disjoint;
    hide Uncommitted;
    hide ClientOk;
    var s' := s.(clients := s.clients[i := c]);
    forall j | 0 <= j < |s.clients| ensures ClientOk(d, s', s'.clients[j]) {
      ClientsOnly(d, s, s'.clients, s'.clients[j]);
    }
  }

  lemma NothingIsDisjoint(x: Delta)
    ensures Disjoint(NO_WRITES, x) && Disjoint(x, NO_WRITES)
  {
  }

  /** A client that is through holds nothing. */
  lemma FinishedKeepsOk(d: Directory, s: Sys, i: nat, c: Client)
    requires SysOk(d, s) && i < |s.clients| && !c.Running?
    ensures SysOk(d, s.(clients := s.clients[i := c]))
  {
    hide Disjoint;
    hide Serialized;
    hide SysOk;
    forall j | 0 <= j < |s.clients| && j != i
      ensures var x := Uncommitted(d, s.clients[j]); Disjoint(NO_WRITES, x) && Disjoint(x, NO_WRITES)
    {
      NothingIsDisjoint(Uncommitted(d, s.clients[j]));
    }
    ReplacedKeepsOk(d, s, i, c);
  }

  lemma StatementKeepsOk(d: Directory, s: Sys, i: nat)
    requires SysOk(d, s) && i < |s.clients| && s.clients[i].Running?
    requires var c := s.clients[i];
             var stmt := StmtAt(d, c.op, c.obs, |c.obs|);
             Enabled(d, s, i, stmt) && !stmt.Commit? && Succeeds(s.db, Uncommitted(d, c), stmt)
    ensures var c := s.clients[i];
            var o := Result(s, Uncommitted(d, c), StmtAt(d, c.op, c.obs, |c.obs|));
            SysOk(d, s.(clients := s.clients[i := Running(c.op, c.obs + [o])]))
  {
    hide StmtAt;
    hide WritesAt;
    hide Serialized;
    hide Disjoint;
    hide ClientOk;
    hide Succeeds;
    hide Result;
    hide Write;
    hide NotBlocked;
    hide Sensible;
    hide Picks;
    hide Claimable;
    var Running(op, obs) := s.clients[i];
    var stmt := StmtAt(d, op, obs, |obs|);
    var w := WritesAt(d, op, obs, |obs|);
    var o := Result(s, w, stmt);
    StepKeepsClient(d, s, op, obs);
    NextIsSensible(d, s, op, obs);
    var c := Running(op, obs + [o]);
    forall j | 0 <= j < |s.clients| && j != i
      ensures var x := Uncommitted(d, s.clients[j]); Disjoint(Uncommitted(d, c), x) && Disjoint(x, Uncommitted(d, c))
    {
      WriteStaysDisjoint(s, w, stmt, Uncommitted(d, s.clients[j]));
    }
    ReplacedKeepsOk(d, s, i, c);
  }

  lemma CommitKeepsOk(d: Directory, s: Sys, i: nat)
    requires SysOk(d, s) && i < |s.clients| && s.clients[i].Running?
    requires StmtAt(d, s.clients[i].op, s.clients[i].obs, |s.clients[i].obs|).Commit?
    ensures var Running(op, obs) := s.clients[i];
            SysOk(d, s.(db := Merge(s.db, Uncommitted(d, s.clients[i])), history := s.history + [op],
                        clients := s.clients[i := Finished(op, StmtAt(d, op, obs, |obs|).reply)]))
  {
    hide StmtAt;
    hide WritesAt;
    hide Serialized;
    hide Disjoint;
    hide ObsOk;
    hide WritesOk;
    hide Merge;
    var Running(op, obs) := s.clients[i];
    var w := WritesAt(d, op, obs, |obs|);
    var reply := StmtAt(d, op, obs, |obs|).reply;
    var s' := s.(db := Merge(s.db, w), history := s.history + [op], clients := s.clients[i := Finished(op, reply)]);
    CommitKeepsSerialized(d, s, s', op, obs);
    forall j | 0 <= j < |s.clients| && s'.clients[j].Running? ensures ClientOk(d, s', s'.clients[j]) {
      CommitKeepsOthers(d, s, s', op, w, s.clients[j].op, s.clients[j].obs);
    }
    forall j | 0 <= j < |s.clients|
      ensures var x := Uncommitted(d, s'.clients[j]); Disjoint(NO_WRITES, x) && Disjoint(x, NO_WRITES)
    {
      NothingIsDisjoint(Uncommitted(d, s'.clients[j]));
    }
  }

  lemma ArrivalKeepsOk(d: Directory, s: Sys, op: Op)
    requires SysOk(d, s)
    ensures SysOk(d, s.(clients := s.clients + [Running(op, [])]))
  {
    hide AllCommit;
    hide Disjoint;
    hide Holds;
    hide StmtAt;
    var c := Running(op, []);
    var s' := s.(clients := s.clients + [c]);
    assert Uncommitted(d, c) == NO_WRITES;
    forall j | 0 <= j < |s'.clients| ensures ClientOk(d, s', s'.clients[j]) {
      if j < |s.clients| {
        ClientsOnly(d, s, s'.clients, s'.clients[j]);
      }
    }
    forall j | 0 <= j < |s.clients|
      ensures var x := Uncommitted(d, s.clients[j]); Disjoint(NO_WRITES, x) && Disjoint(x, NO_WRITES)
    {
      NothingIsDisjoint(Uncommitted(d, s.clients[j]));
    }
  }

  lemma StepKeepsOk(d: Directory, s: Sys, s': Sys)
    requires SysOk(d, s) && Step(d, s, s')
    ensures SysOk(d, s') && s'.init == s.init
  {
    hide StmtAt;
    hide SysOk;
    hide Enabled;
    hide Succeeds;
    hide Uncommitted;
    if i: nat :| Executes(d, s, s', i) {
      var Running(op, obs) := s.clients[i];
      var stmt := StmtAt(d, op, obs, |obs|);
      if stmt.Commit? {
        CommitKeepsOk(d, s, i);
      } else if Succeeds(s.db, Uncommitted(d, s.clients[i]), stmt) {
        StatementKeepsOk(d, s, i);
      } else {
        FinishedKeepsOk(d, s, i, Finished(op, Failure(stmt)));
      }
    } else if i: nat :| Loses(s, s', i) {
      FinishedKeepsOk(d, s, i, Lost(s.clients[i].op));
    } else {
      var op :| Arrives(s, s', op);
      ArrivalKeepsOk(d, s, op);
    }
  }

  /**
   * Serializability: after every step of every interleaving, the database is what its committed
   * operations give when they run one at a time in commit order, and each of them commits there.
   */
  lemma {:induction false} Serializable(d: Directory, trace: seq<Sys>, k: nat)
    requires Run(d, trace) && k < |trace|
    ensures SysOk(d, trace[k]) && trace[k].init == trace[0].init
    ensures trace[k].db == RunAll(d, trace[0].init, trace[k].history)
    ensures AllCommit(d, trace[0].init, trace[k].history)
  {
    hide Step;
    hide ClientOk;
    hide Disjoint;
    if k == 0 {
      assert SysOk(d, trace[0]);
    } else {
      Serializable(d, trace, k - 1);
      assert Step(d, trace[k - 1], trace[k - 1 + 1]);
      StepKeepsOk(d, trace[k - 1], trace[k]);
    }
  }
}
