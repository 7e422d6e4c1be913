// The converse of serializability: what operations do one after the other, the concurrent system can
// do as well, client by client, with the same tables and the same replies.
module SerialRuns {
  import opened Base
  import opened Ledger
  import opened Serial
  import opened Protocol
  import opened Commits
  import opened Serializability
  import opened Alone

  ghost predicate Steps(d: Directory, trace: seq<Sys>) {
    trace != [] && forall k | 0 <= k < |trace| - 1 :: Step(d, trace[k], trace[k + 1])
  }

  function Last(trace: seq<Sys>): Sys
    requires trace != []
  {
    trace[|trace| - 1]
  }

  lemma StepThen(d: Directory, s: Sys, rest: seq<Sys>)
    requires Steps(d, rest) && Step(d, s, rest[0])
    ensures Steps(d, [s] + rest) && Last([s] + rest) == Last(rest)
  {
    hide Step;
    var all := [s] + rest;
    forall k | 0 <= k < |all| - 1 ensures Step(d, all[k], all[k + 1]) {
      if k > 0 {
        assert Step(d, rest[k - 1], rest[k - 1 + 1]);
      }
    }
  }

  lemma Join(d: Directory, a: seq<Sys>, b: seq<Sys>)
    requires Steps(d, a) && Steps(d, b) && Step(d, Last(a), b[0])
    ensures Steps(d, a + b) && Last(a + b) == Last(b)
  {
    hide Step;
    var all := a + b;
    forall k | 0 <= k < |all| - 1 ensures Step(d, all[k], all[k + 1]) {
      if k < |a| - 1 {
        assert Step(d, a[k], a[k + 1]);
      } else if k >= |a| {
        assert Step(d, b[k - |a|], b[k - |a| + 1]);
      }
    }
  }

  /** Nobody but client i is under way. */
  predicate Idle(s: Sys, i: nat) {
    forall j | 0 <= j < |s.clients| && j != i :: !s.clients[j].Running?
  }

  /** The claim finds the named request oldest, or finds none. */
  predicate MayClaim(db: State, op: Op) {
    op.DoRefund? ==>
      || (op.request in db.reqs && db.reqs[op.request].status == Pending
          && forall u | u in db.reqs && db.reqs[u].status == Pending ::
               db.reqs[op.request].created <= db.reqs[u].created)
      || forall u | u in db.reqs :: db.reqs[u].status != Pending
  }

  lemma ClaimsFirst(d: Directory, op: Op, obs: seq<Obs>)
    requires StmtAt(d, op, obs, |obs|).ClaimRequest?
    ensures obs == [] && op.DoRefund? && StmtAt(d, op, obs, |obs|).q == op.request
  {
    hide Updated;
    hide SettledRow;
    hide SettleTxn;
    hide RefundTxn;
    hide ParentRef;
    hide IsPayment;
    hide Fee;
  }

  /** With nobody else under way no statement waits. */
  lemma AloneIsEnabled(d: Directory, s: Sys, i: nat)
    requires i < |s.clients| && s.clients[i].Running? && Idle(s, i) && MayClaim(s.db, s.clients[i].op)
    ensures var c := s.clients[i]; Enabled(d, s, i, StmtAt(d, c.op, c.obs, |c.obs|))
  {
    hide StmtAt;
    var Running(op, obs) := s.clients[i];
    var stmt := StmtAt(d, op, obs, |obs|);
    forall j | 0 <= j < |s.clients| && j != i ensures NotBlocked(stmt, Uncommitted(d, s.clients[j])) {
      assert Uncommitted(d, s.clients[j]) == NO_WRITES;
    }
    if stmt.ClaimRequest? {
      ClaimsFirst(d, op, obs);
      forall c | c in s.clients ensures Uncommitted(d, c) == NO_WRITES {
        assert c == s.clients[i] || !c.Running?;
      }
      assert forall u | u in s.db.reqs :: Claimable(d, s, u) <==> s.db.reqs[u].status == Pending;
    }
  }

  lemma ExtendUndisturbed(d: Directory, s: Sys, op: Op, obs: seq<Obs>, clients: seq<Client>)
    requires Undisturbed(d, s, op, obs)
    requires Succeeds(s.db, WritesAt(d, op, obs, |obs|), StmtAt(d, op, obs, |obs|))
    ensures var o := Result(s, WritesAt(d, op, obs, |obs|), StmtAt(d, op, obs, |obs|));
            Undisturbed(d, s.(clients := clients), op, obs + [o])
  {
    hide StmtAt;
    hide WritesAt;
    hide Succeeds;
    var o := Result(s, WritesAt(d, op, obs, |obs|), StmtAt(d, op, obs, |obs|));
    forall k | 0 <= k < |obs| + 1 ensures StillSo(d, s.(clients := clients), op, obs + [o], k) {
      StmtPrefix(d, op, obs, o, k);
      WritesPrefix(d, op, obs, o, k);
      assert k < |obs| ==> StillSo(d, s, op, obs, k);
    }
  }

  /** Every program ends after eight statements. */
  lemma ProgramsEnd(d: Directory, s: Sys, op: Op, obs: seq<Obs>)
    requires Undisturbed(d, s, op, obs)
    ensures |obs| <= 8
  {
    hide Undisturbed;
    hide Updated;
    hide SettledRow;
    hide SettleTxn;
    hide RefundTxn;
    hide ParentRef;
    hide IsPayment;
    hide Fee;
    ShortEnough(d, s, op, obs, 8);
  }

  /** How the system looks when client i is through, as the serial operation says. */
  predicate Done(d: Directory, s: Sys, i: nat, s': Sys)
    requires i < |s.clients|
  {
    var op := s.clients[i].op;
    var o := Apply(d, s.db, op);
    s'.init == s.init && s'.db == After(s.db, o) && s'.clients == s.clients[i := Finished(op, o.reply)]
  }

  /** One statement of an undisturbed client. */
  lemma AloneStep(d: Directory, s: Sys, i: nat) returns (s': Sys)
    requires SysOk(d, s) && i < |s.clients| && s.clients[i].Running? && Idle(s, i)
    requires Undisturbed(d, s, s.clients[i].op, s.clients[i].obs) && MayClaim(s.db, s.clients[i].op)
    ensures Step(d, s, s') && SysOk(d, s')
    ensures Done(d, s, i, s')
            || (var Running(op, obs) := s.clients[i];
                && s'.init == s.init && s'.db == s.db && |s'.clients| == |s.clients|
                && exists o ::
                     s'.clients == s.clients[i := Running(op, obs + [o])] && Undisturbed(d, s', op, obs + [o]))
  {
    hide StmtAt;
    hide WritesAt;
    hide SysOk;
    hide Undisturbed;
    hide Succeeds;
    hide Result;
    hide Enabled;
    hide Apply;
    hide After;
    hide Merge;
    var Running(op, obs) := s.clients[i];
    var stmt := StmtAt(d, op, obs, |obs|);
    var w := WritesAt(d, op, obs, |obs|);
    AloneIsEnabled(d, s, i);
    if stmt.Commit? {
      CommitsAlone(d, s, i);
      s' := s.(db := Merge(s.db, w), history := s.history + [op], clients := s.clients[i := Finished(op, stmt.reply)]);
    } else if Succeeds(s.db, w, stmt) {
      var o := Result(s, w, stmt);
      s' := s.(clients := s.clients[i := Running(op, obs + [o])]);
      ExtendUndisturbed(d, s, op, obs, s'.clients);
    } else {
      IsStuck(d, s, op, obs);
      FailureIsSerial(d, s, op, obs);
      s' := s.(clients := s.clients[i := Finished(op, Failure(stmt))]);
    }
    assert Executes(d, s, s', i);
    StepKeepsOk(d, s, s');
  }

  lemma IsStuck(d: Directory, s: Sys, op: Op, obs: seq<Obs>)
    requires Undisturbed(d, s, op, obs) && !StmtAt(d, op, obs, |obs|).Commit?
    requires !Succeeds(s.db, WritesAt(d, op, obs, |obs|), StmtAt(d, op, obs, |obs|))
    ensures Stuck(d, s, op, obs)
  {
  }

  lemma CommitsAlone(d: Directory, s: Sys, i: nat)
    requires SysOk(d, s) && i < |s.clients| && s.clients[i].Running?
    requires StmtAt(d, s.clients[i].op, s.clients[i].obs, |s.clients[i].obs|).Commit?
    ensures var Running(op, obs) := s.clients[i];
            && After(s.db, Apply(d, s.db, op)) == Merge(s.db, WritesAt(d, op, obs, |obs|))
            && Apply(d, s.db, op).reply == StmtAt(d, op, obs, |obs|).reply
  {
    hide StmtAt;
    hide WritesAt;
    hide Apply;
    hide Merge;
    hide ClientOk;
    hide Serialized;
    hide Disjoint;
    CommitIsSerial(d, s, s.clients[i].op, s.clients[i].obs);
  }

  /** An undisturbed client finishes as its serial operation, reply and tables alike, failing or not. */
  lemma {:induction false} AloneIsSerial(d: Directory, s: Sys, i: nat) returns (trace: seq<Sys>)
    requires SysOk(d, s) && i < |s.clients| && s.clients[i].Running? && Idle(s, i)
    requires Undisturbed(d, s, s.clients[i].op, s.clients[i].obs) && MayClaim(s.db, s.clients[i].op)
    ensures Steps(d, trace) && Step(d, s, trace[0]) && SysOk(d, Last(trace)) && Done(d, s, i, Last(trace))
    decreases 8 - |s.clients[i].obs|
  {
    hide Step;
    hide SysOk;
    hide Undisturbed;
    hide Apply;
    hide After;
    hide MayClaim;
    ProgramsEnd(d, s, s.clients[i].op, s.clients[i].obs);
    var s' := AloneStep(d, s, i);
    if Done(d, s, i, s') {
      trace := [s'];
    } else {
      ProgramsEnd(d, s', s'.clients[i].op, s'.clients[i].obs);
      var rest := AloneIsSerial(d, s', i);
      StepThen(d, s', rest);
      trace := [s'] + rest;
    }
  }

  /** A mark of the k-th operation has its reason: an earlier refund of that request found no funds. */
  predicate Justified(d: Directory, init: State, ops: seq<Op>, k: nat)
    requires k < |ops|
  {
    ops[k].DoMarkFailed? ==>
      exists j | 0 <= j < k :: LackedFunds(d, init, ops, j) && ops[j].request == ops[k].request
  }

  /** What the system itself asks of a serial run: claims take an oldest request, and marks have a reason. */
  predicate Plausible(d: Directory, init: State, ops: seq<Op>) {
    forall k | 0 <= k < |ops| :: MayClaim(RunAll(d, init, ops[..k]), ops[k]) && Justified(d, init, ops, k)
  }

  predicate LackedFunds(d: Directory, init: State, ops: seq<Op>, j: nat) {
    && j < |ops| && ops[j].DoRefund?
    && Apply(d, RunAll(d, init, ops[..j]), ops[j]).reply == MerchantInsufficientBalance
  }

  /** Every call has come back with the reply of its serial operation. */
  predicate AllReplied(d: Directory, init: State, ops: seq<Op>, clients: seq<Client>) {
    |clients| == |ops| && forall k | 0 <= k < |ops| ::
      clients[k] == Finished(ops[k], Apply(d, RunAll(d, init, ops[..k]), ops[k]).reply)
  }

  lemma LackedInPrefix(d: Directory, init: State, ops: seq<Op>, n: nat, j: nat)
    requires j < n <= |ops|
    ensures LackedFunds(d, init, ops[..n], j) <==> LackedFunds(d, init, ops, j)
  {
    hide Apply;
    hide RunAll;
    assert ops[..n][..j] == ops[..j];
  }

  lemma JustifiedInPrefix(d: Directory, init: State, ops: seq<Op>, n: nat, k: nat)
    requires k < n <= |ops|
    ensures Justified(d, init, ops[..n], k) <==> Justified(d, init, ops, k)
  {
    hide LackedFunds;
    forall j | 0 <= j < k ensures LackedFunds(d, init, ops[..n], j) <==> LackedFunds(d, init, ops, j) {
      LackedInPrefix(d, init, ops, n, j);
    }
  }

  lemma PlausiblePrefix(d: Directory, init: State, ops: seq<Op>, n: nat)
    requires Plausible(d, init, ops) && n <= |ops|
    ensures Plausible(d, init, ops[..n])
  {
    hide RunAll;
    hide MayClaim;
    hide Justified;
    forall k | 0 <= k < n
      ensures MayClaim(RunAll(d, init, ops[..n][..k]), ops[..n][k]) && Justified(d, init, ops[..n], k)
    {
      assert ops[..n][..k] == ops[..k];
      JustifiedInPrefix(d, init, ops, n, k);
    }
  }

  /** One more operation the system may do after a plausible run. */
  lemma PlausibleSnoc(d: Directory, init: State, ops: seq<Op>, op: Op)
    requires Plausible(d, init, ops) && MayClaim(RunAll(d, init, ops), op)
    requires Justified(d, init, ops + [op], |ops|)
    ensures Plausible(d, init, ops + [op])
  {
    hide RunAll;
    hide MayClaim;
    hide Justified;
    var all, n := ops + [op], |ops|;
    assert all[..n] == ops;
    forall k | 0 <= k <= n ensures MayClaim(RunAll(d, init, all[..k]), all[k]) && Justified(d, init, all, k) {
      if k < n {
        assert all[..k] == ops[..k];
        JustifiedInPrefix(d, init, all, n, k);
      }
    }
  }

  lemma RepliedSnoc(d: Directory, init: State, ops: seq<Op>, clients: seq<Client>, c: Client)
    requires ops != [] && AllReplied(d, init, ops[..|ops| - 1], clients)
    requires var n := |ops| - 1; c == Finished(ops[n], Apply(d, RunAll(d, init, ops[..n]), ops[n]).reply)
    ensures AllReplied(d, init, ops, clients + [c])
  {
    hide Apply;
    hide RunAll;
    var most := ops[..|ops| - 1];
    forall k | 0 <= k < |ops| - 1 ensures most[..k] == ops[..k] {}
  }

  lemma MayArrive(d: Directory, init: State, ops: seq<Op>, s: Sys)
    requires ops != [] && Plausible(d, init, ops) && AllReplied(d, init, ops[..|ops| - 1], s.clients)
    ensures Step(d, s, s.(clients := s.clients + [Running(ops[|ops| - 1], [])]))
  {
    hide Apply;
    hide RunAll;
    hide MayClaim;
    hide Executes;
    hide Loses;
    var n := |ops| - 1;
    var op := ops[n];
    assert Justified(d, init, ops, n);
    if op.DoMarkFailed? {
      var j :| 0 <= j < n && LackedFunds(d, init, ops, j) && ops[j].request == op.request;
      assert ops[..n][..j] == ops[..j];
      assert s.clients[j] in s.clients;
    }
    assert Arrives(s, s.(clients := s.clients + [Running(op, [])]), op);
  }

  /**
   * Every plausible serial run is a run of the concurrent system: the calls arrive one after the
   * other, each runs alone, and tables and replies are those of the serial operations.
   */
  lemma {:induction false} SerialRunHappens(d: Directory, init: State, ops: seq<Op>) returns (trace: seq<Sys>)
    requires Plausible(d, init, ops)
    ensures Run(d, trace) && trace[0].init == init && SysOk(d, Last(trace)) && Last(trace).init == init
    ensures Last(trace).db == RunAll(d, init, ops) && AllReplied(d, init, ops, Last(trace).clients)
    decreases |ops|
  {
    hide Step;
    hide SysOk;
    hide Apply;
    hide MayClaim;
    hide Undisturbed;
    if ops == [] {
      trace := [Sys(init, init, [], [])];
      NothingHappened(d, trace[0]);
    } else {
      var n := |ops| - 1;
      PlausiblePrefix(d, init, ops, n);
      var before := SerialRunHappens(d, init, ops[..n]);
      var s := Last(before);
      var s1 := s.(clients := s.clients + [Running(ops[n], [])]);
      MayArrive(d, init, ops, s);
      StepKeepsOk(d, s, s1);
      NothingDone(d, s1, ops[n]);
      assert MayClaim(RunAll(d, init, ops[..n]), ops[n]);
      var rest := AloneIsSerial(d, s1, n);
      StepThen(d, s1, rest);
      Join(d, before, [s1] + rest);
      trace := before + ([s1] + rest);
      assert s1.clients[n := Last(rest).clients[n]] == s.clients + [Last(rest).clients[n]];
      RepliedSnoc(d, init, ops, s.clients, Last(rest).clients[n]);
    }
  }

  lemma NothingDone(d: Directory, s: Sys, op: Op)
    ensures Undisturbed(d, s, op, [])
  {
  }

  lemma NothingHappened(d: Directory, s: Sys)
    requires Initial(s)
    ensures SysOk(d, s)
  {
  }
}
