// A single refund worker among any number of other clients: completed requests and refund entries
// correspond one to one in every interleaving.
module OneWorker {
  import opened Base
  import opened Ledger
  import opened Serial
  import opened Entries
  import opened Refunds
  import opened Protocol
  import opened Commits
  import opened Serializability

  predicate IsWorkerOp(op: Op) {
    op.DoRefund? || op.DoMarkFailed?
  }

  predicate LacksFunds(c: Client) {
    c.Finished? && c.op.DoRefund? && c.reply == MerchantInsufficientBalance
  }

  /** The last thing the worker started. */
  predicate Latest(clients: seq<Client>, i: nat)
    requires i < |clients|
  {
    IsWorkerOp(clients[i].op) && forall j | i < j < |clients| :: !IsWorkerOp(clients[j].op)
  }

  /** One worker: it starts nothing while busy, and marks failed only the request it has just given up on. */
  predicate OneWorkerStep(s: Sys, s': Sys) {
    |s'.clients| == |s.clients| + 1 && IsWorkerOp(s'.clients[|s.clients|].op) ==>
      && (forall c | c in s.clients && IsWorkerOp(c.op) :: !c.Running?)
      && (s'.clients[|s.clients|].op.DoMarkFailed? ==>
            exists i | 0 <= i < |s.clients| ::
              && Latest(s.clients, i) && LacksFunds(s.clients[i])
              && s.clients[i].op.request == s'.clients[|s.clients|].op.request)
  }

  predicate SingleWorker(trace: seq<Sys>) {
    forall k | 0 <= k < |trace| - 1 :: OneWorkerStep(trace[k], trace[k + 1])
  }

  predicate IsPending(s: State, q: Uuid) {
    q in s.reqs && s.reqs[q].status == Pending
  }

  /** A worker that found no funds, or is about to say so, leaves the request waiting. */
  predicate WorkerOk(s: Sys) {
    && (forall i | 0 <= i < |s.clients| && s.clients[i].Running? && IsWorkerOp(s.clients[i].op) :: Latest(s.clients, i))
    && (forall i | 0 <= i < |s.clients| && Latest(s.clients, i) ::
          LacksFunds(s.clients[i]) || (s.clients[i].Running? && s.clients[i].op.DoMarkFailed?) ==>
            IsPending(s.db, s.clients[i].op.request))
  }

  lemma NoFundsMeansPending(d: Directory, s: Sys, op: Op, obs: seq<Obs>)
    requires ClientOk(d, s, Running(op, obs)) && op.DoRefund?
    requires Failure(StmtAt(d, op, obs, |obs|)) == MerchantInsufficientBalance
    ensures IsPending(s.db, op.request)
  {
    hide WritesOk;
    hide WritesAt;
    hide Updated;
    hide RefundTxn;
    assert |obs| > 0;
    assert ObsOk(d, s, op, obs, 0);
  }

  lemma MoveKeepsLatest(clients: seq<Client>, i: nat, c: Client, j: nat)
    requires i < |clients| && j < |clients| && c.op == clients[i].op
    ensures Latest(clients[i := c], j) <==> Latest(clients, j)
  {
    forall n | j < n < |clients| ensures clients[i := c][n].op == clients[n].op {}
    if Latest(clients[i := c], j) {
      forall n | j < n < |clients| ensures !IsWorkerOp(clients[n].op) {
        assert clients[i := c][n].op == clients[n].op;
      }
    }
  }

  /** Client i moves on, the database stays. */
  lemma MoveKeepsWorker(s: Sys, i: nat, c: Client)
    requires WorkerOk(s) && i < |s.clients| && s.clients[i].Running? && c.op == s.clients[i].op
    requires LacksFunds(c) ==> IsPending(s.db, c.op.request)
    ensures WorkerOk(s.(clients := s.clients[i := c]))
  {
    hide Latest;
    var s' := s.(clients := s.clients[i := c]);
    forall j | 0 <= j < |s.clients| ensures Latest(s'.clients, j) <==> Latest(s.clients, j) {
      MoveKeepsLatest(s.clients, i, c, j);
    }
  }

  lemma OthersKeepPending(d: Directory, s: State, op: Op, q: Uuid)
    requires Inv(s) && !IsWorkerOp(op) && IsPending(s, q)
    ensures IsPending(After(s, Apply(d, s, op)), q)
  {
    hide Inv;
    hide Apply;
    var _ := NonRefundEntries(d, s, op);
  }

  lemma CommitReplies(d: Directory, op: Op, obs: seq<Obs>)
    requires StmtAt(d, op, obs, |obs|).Commit?
    ensures StmtAt(d, op, obs, |obs|).reply != MerchantInsufficientBalance
  {
    hide Updated;
    hide SettledRow;
    hide SettleTxn;
    hide RefundTxn;
    hide ParentRef;
    hide IsPayment;
    hide Fee;
  }

  /** The worker itself commits: it is through, and found its funds. */
  lemma WorkerCommitKeepsWorker(s: Sys, s': Sys, i: nat, reply: Reply)
    requires WorkerOk(s) && i < |s.clients| && s.clients[i].Running? && IsWorkerOp(s.clients[i].op)
    requires reply != MerchantInsufficientBalance && s'.clients == s.clients[i := Finished(s.clients[i].op, reply)]
    ensures WorkerOk(s')
  {
    hide Latest;
    var c := s'.clients[i];
    forall j | 0 <= j < |s.clients| ensures Latest(s'.clients, j) <==> Latest(s.clients, j) {
      MoveKeepsLatest(s.clients, i, c, j);
    }
    assert Latest(s.clients, i);
    forall j | 0 <= j < |s.clients| && Latest(s'.clients, j) ensures j == i {
      OneLatest(s.clients, i, j);
    }
  }

  lemma OneLatest(clients: seq<Client>, i: nat, j: nat)
    requires i < |clients| && j < |clients| && Latest(clients, i) && Latest(clients, j)
    ensures i == j
  {
  }

  /** Anyone else commits. */
  lemma OtherCommitKeepsWorker(d: Directory, s: Sys, s': Sys, i: nat, c: Client)
    requires WorkerOk(s) && Inv(s.db) && i < |s.clients| && s.clients[i].Running? && !IsWorkerOp(s.clients[i].op)
    requires s'.db == After(s.db, Apply(d, s.db, s.clients[i].op))
    requires s'.clients == s.clients[i := c] && c.op == s.clients[i].op
    ensures WorkerOk(s')
  {
    hide Inv;
    hide Apply;
    hide After;
    hide Latest;
    hide IsPending;
    forall j | 0 <= j < |s.clients| ensures Latest(s'.clients, j) <==> Latest(s.clients, j) {
      MoveKeepsLatest(s.clients, i, c, j);
    }
    forall q: Uuid | IsPending(s.db, q) ensures IsPending(s'.db, q) {
      OthersKeepPending(d, s.db, s.clients[i].op, q);
    }
  }

  lemma ArrivalKeepsWorker(s: Sys, s': Sys, op: Op)
    requires WorkerOk(s) && Arrives(s, s', op) && OneWorkerStep(s, s')
    ensures WorkerOk(s')
  {
    hide IsPending;
    var n := |s.clients|;
    if IsWorkerOp(op) {
      assert Latest(s'.clients, n);
      if op.DoMarkFailed? {
        var i :| 0 <= i < n && Latest(s.clients, i) && LacksFunds(s.clients[i])
                 && s.clients[i].op.request == op.request;
        assert IsPending(s.db, op.request);
      }
      forall j | 0 <= j < n ensures !Latest(s'.clients, j) {
        assert IsWorkerOp(s'.clients[n].op);
      }
    } else {
      forall j | 0 <= j < n ensures Latest(s'.clients, j) <==> Latest(s.clients, j) {
        AppendKeepsLatest(s.clients, s'.clients[n], j);
      }
    }
  }

  lemma AppendKeepsLatest(clients: seq<Client>, c: Client, j: nat)
    requires j < |clients| && !IsWorkerOp(c.op)
    ensures Latest(clients + [c], j) <==> Latest(clients, j)
  {
    if Latest(clients + [c], j) {
      forall n | j < n < |clients| ensures !IsWorkerOp(clients[n].op) {
        assert (clients + [c])[n] == clients[n];
      }
    }
  }

  lemma MarksWaitingSnoc(d: Directory, s: State, ops: seq<Op>, op: Op)
    requires MarksWaiting(d, s, ops)
    requires op.DoMarkFailed? ==> IsPending(RunAll(d, s, ops), op.request)
    ensures MarksWaiting(d, s, ops + [op])
  {
    hide RunAll;
    var all := ops + [op];
    forall k | 0 <= k < |all| && all[k].DoMarkFailed?
      ensures var mid := RunAll(d, s, all[..k]);
              all[k].request in mid.reqs ==> mid.reqs[all[k].request].status != Completed
    {
      if k < |ops| {
        assert all[..k] == ops[..k];
      } else {
        assert all[..k] == ops;
      }
    }
  }

  /** What the induction carries. */
  predicate InStep(d: Directory, s: Sys) {
    SysOk(d, s) && WorkerOk(s) && MarksWaiting(d, s.init, s.history)
  }

  lemma CommitKeepsInStep(d: Directory, s: Sys, s': Sys, i: nat)
    requires InStep(d, s) && DirectoryOk(d) && Fresh(s.init) && Executes(d, s, s', i)
    requires StmtAt(d, s.clients[i].op, s.clients[i].obs, |s.clients[i].obs|).Commit?
    ensures WorkerOk(s') && MarksWaiting(d, s'.init, s'.history)
  {
    hide StmtAt;
    hide WritesAt;
    hide Merge;
    hide Enabled;
    hide Latest;
    hide Apply;
    hide Inv;
    hide ObsOk;
    hide WritesOk;
    hide Disjoint;
    hide RunAll;
    hide AllCommit;
    hide MarksWaiting;
    hide IsPending;
    var Running(op, obs) := s.clients[i];
    var c := Finished(op, StmtAt(d, op, obs, |obs|).reply);
    CommitIsSerial(d, s, op, obs);
    CommitReplies(d, op, obs);
    RunKeepsInv(d, s.init, s.history);
    MarksWaitingSnoc(d, s.init, s.history, op);
    if IsWorkerOp(op) {
      WorkerCommitKeepsWorker(s, s', i, c.reply);
    } else {
      OtherCommitKeepsWorker(d, s, s', i, c);
    }
  }

  lemma StepKeepsInStep(d: Directory, s: Sys, s': Sys)
    requires InStep(d, s) && DirectoryOk(d) && Fresh(s.init) && Step(d, s, s') && OneWorkerStep(s, s')
    ensures InStep(d, s') && s'.init == s.init
  {
    hide StmtAt;
    hide Enabled;
    hide Succeeds;
    hide Uncommitted;
    hide ObsOk;
    hide WritesOk;
    hide Disjoint;
    hide Serialized;
    hide WorkerOk;
    hide MarksWaiting;
    hide IsPending;
    hide OneWorkerStep;
    StepKeepsOk(d, s, s');
    if i: nat :| Executes(d, s, s', i) {
      var Running(op, obs) := s.clients[i];
      var stmt := StmtAt(d, op, obs, |obs|);
      if stmt.Commit? {
        CommitKeepsInStep(d, s, s', i);
      } else {
        var c := s'.clients[i];
        if LacksFunds(c) {
          NoFundsMeansPending(d, s, op, obs);
        }
        MoveKeepsWorker(s, i, c);
      }
    } else if i: nat :| Loses(s, s', i) {
      MoveKeepsWorker(s, i, Lost(s.clients[i].op));
    } else {
      var op :| Arrives(s, s', op);
      ArrivalKeepsWorker(s, s', op);
    }
  }

  lemma {:induction false} RunKeepsInStep(d: Directory, trace: seq<Sys>, k: nat)
    requires Run(d, trace) && SingleWorker(trace) && DirectoryOk(d) && Fresh(trace[0].init) && k < |trace|
    ensures InStep(d, trace[k]) && trace[k].init == trace[0].init
  {
    hide Step;
    hide OneWorkerStep;
    hide ClientOk;
    hide Disjoint;
    hide Fresh;
    if k > 0 {
      RunKeepsInStep(d, trace, k - 1);
      assert Step(d, trace[k - 1], trace[k - 1 + 1]) && OneWorkerStep(trace[k - 1], trace[k - 1 + 1]);
      StepKeepsInStep(d, trace[k - 1], trace[k]);
    }
  }

  /** With one worker, however its steps interleave with others', refund entries and completed requests match. */
  lemma SingleWorkerStaysInStep(d: Directory, trace: seq<Sys>, k: nat)
    requires Run(d, trace) && SingleWorker(trace) && DirectoryOk(d) && Fresh(trace[0].init) && k < |trace|
    ensures RequestsSound(trace[k].db) && RefundsRequested(trace[k].db)
  {
    hide Run;
    hide SingleWorker;
    hide ClientOk;
    hide Disjoint;
    hide RequestsSound;
    hide RefundsRequested;
    hide MarksWaiting;
    RunKeepsInStep(d, trace, k);
    SingleWorkerBijection(d, trace[0].init, trace[k].history);
  }

  /** Nor does its failed request move money in any interleaving: no refund of it was ever committed. */
  lemma SingleWorkerFailedMovedNothing(d: Directory, trace: seq<Sys>, k: nat, q: Uuid)
    requires Run(d, trace) && SingleWorker(trace) && DirectoryOk(d) && Fresh(trace[0].init) && k < |trace|
    requires q in trace[k].db.reqs && trace[k].db.reqs[q].status == Failed
    ensures forall op | op in trace[k].history :: op.DoRefund? ==> op.request != q
  {
    hide Run;
    hide SingleWorker;
    hide ClientOk;
    hide Disjoint;
    hide MarksWaiting;
    hide RunAll;
    hide Apply;
    RunKeepsInStep(d, trace, k);
    var h := trace[k].history;
    forall op | op in h && op.DoRefund? ensures op.request != q {
      var n :| 0 <= n < |h| && h[n] == op;
      if op.request == q {
        assert Apply(d, RunAll(d, trace[0].init, h[..n]), h[n]).Committed?;
        FailedMovedNothing(d, trace[0].init, h, q, n);
      }
    }
  }
}
