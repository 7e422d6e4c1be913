// What draining the pending refund requests comes to: a fold of serial refunds, oldest first.
module Draining {
  import opened Base
  import opened Ledger
  import opened Serial
  import opened Store

  /** What ProcessOne does with the request it claims: lack of funds is the one error that marks it. */
  predicate Processed(s: State, op: Op, s': State, err: Reply)
    requires op.DoRefund?
  {
    var o := ApplyRefund(s, op);
    && err == o.reply
    && s' == if err == MerchantInsufficientBalance then ApplyMarkFailed(s, DoMarkFailed(op.request)).s else After(s, o)
  }

  function RefundOps(picks: seq<Uuid>, draw: nat -> (Uuid, int)): seq<Op> {
    seq(|picks|, i requires 0 <= i < |picks| => DoRefund(picks[i], draw(i).0, draw(i).1))
  }

  /** All but a last, failing pick commit one after the other; the failing one is only marked, or left. */
  predicate Drained(d: Directory, s: State, picks: seq<Uuid>, draw: nat -> (Uuid, int), s': State, err: Reply) {
    var ops := RefundOps(picks, draw);
    if err == NoPendingRequests then
      AllCommit(d, s, ops) && s' == RunAll(d, s, ops) && PendingOf(s'.reqs) == {}
    else
      && |picks| > 0
      && var n := |picks| - 1;
         var mid := RunAll(d, s, ops[..n]);
         AllCommit(d, s, ops[..n]) && ApplyRefund(mid, ops[n]).RolledBack? && Processed(mid, ops[n], s', err)
  }

  /** No request pending at the start is older than one that was picked before it. */
  predicate OldestFirst(reqs: map<Uuid, Request>, picks: seq<Uuid>) {
    && (forall i, j | 0 <= i < j < |picks| :: picks[i] != picks[j])
    && (forall i | 0 <= i < |picks| :: picks[i] in PendingOf(reqs))
    && (forall i, u | 0 <= i < |picks| && u in PendingOf(reqs) && u !in picks[..i] ::
          reqs[picks[i]].created <= reqs[u].created)
  }

  function Marked(reqs: map<Uuid, Request>, completed: seq<Uuid>, failed: set<Uuid>): map<Uuid, Request> {
    map q | q in reqs ::
      if q in failed then reqs[q].(status := Failed)
      else if q in completed then reqs[q].(status := Completed)
      else reqs[q]
  }

  /** The loop invariant: the picks so far all committed, and nothing else touched the requests. */
  predicate Folds(d: Directory, s: State, picks: seq<Uuid>, draw: nat -> (Uuid, int), s': State) {
    && AllCommit(d, s, RefundOps(picks, draw)) && s' == RunAll(d, s, RefundOps(picks, draw))
    && OldestFirst(s.reqs, picks) && s'.reqs == Marked(s.reqs, picks, {})
  }

  lemma DrainStart(d: Directory, s: State, draw: nat -> (Uuid, int))
    ensures Folds(d, s, [], draw, s)
  {
    assert Marked(s.reqs, [], {}) == s.reqs;
  }

  lemma RefundOpsSnoc(picks: seq<Uuid>, q: Uuid, draw: nat -> (Uuid, int))
    ensures RefundOps(picks + [q], draw) == RefundOps(picks, draw) + [DoRefund(q, draw(|picks|).0, draw(|picks|).1)]
  {
  }

  lemma AllCommitSnoc(d: Directory, s: State, ops: seq<Op>, op: Op)
    requires AllCommit(d, s, ops) && Apply(d, RunAll(d, s, ops), op).Committed?
    ensures AllCommit(d, s, ops + [op])
  {
    hide Apply;
    hide RunAll;
    var all := ops + [op];
    forall k | 0 <= k < |all| ensures Apply(d, RunAll(d, s, all[..k]), all[k]).Committed? {
      if k < |ops| {
        assert all[..k] == ops[..k];
      } else {
        assert all[..k] == ops;
      }
    }
  }

  lemma MarkedPending(reqs: map<Uuid, Request>, picks: seq<Uuid>, q: Uuid)
    requires q in PendingOf(Marked(reqs, picks, {}))
    ensures q in PendingOf(reqs) && q !in picks
    ensures Marked(reqs, picks, {})[q := reqs[q].(status := Completed)] == Marked(reqs, picks + [q], {})
    ensures Marked(reqs, picks, {})[q := reqs[q].(status := Failed)] == Marked(reqs, picks, {q})
    ensures Marked(reqs, picks, {})[q] == reqs[q]
  {
  }

  lemma OldestFirstSnoc(reqs: map<Uuid, Request>, picks: seq<Uuid>, q: Uuid)
    requires OldestFirst(reqs, picks) && Oldest(Marked(reqs, picks, {}), q)
    ensures OldestFirst(reqs, picks + [q])
  {
    MarkedPending(reqs, picks, q);
    var all := picks + [q];
    forall i, u | 0 <= i < |all| && u in PendingOf(reqs) && u !in all[..i]
      ensures reqs[all[i]].created <= reqs[u].created
    {
      if i < |picks| {
        assert all[..i] == picks[..i];
      } else {
        assert all[..i] == picks;
        assert u in PendingOf(Marked(reqs, picks, {}));
      }
    }
  }

  /** The refund of a pending request moves its status, and no other. */
  lemma ProcessedStatus(s: State, op: Op, s': State, err: Reply)
    requires op.DoRefund? && op.request in PendingOf(s.reqs) && Processed(s, op, s', err)
    ensures err != NoPendingRequests && (err == Ok <==> ApplyRefund(s, op).Committed?)
    ensures s'.reqs == if err == Ok then s.reqs[op.request := s.reqs[op.request].(status := Completed)]
                       else if err == MerchantInsufficientBalance then
                         s.reqs[op.request := s.reqs[op.request].(status := Failed)]
                       else s.reqs
  {
    hide Updated;
    hide CanInsert;
    hide Find;
  }

  lemma FewerPending(reqs: map<Uuid, Request>, q: Uuid)
    requires q in PendingOf(reqs)
    ensures |PendingOf(reqs[q := reqs[q].(status := Completed)])| < |PendingOf(reqs)|
  {
    assert PendingOf(reqs[q := reqs[q].(status := Completed)]) == PendingOf(reqs) - {q};
  }

  /** One round of the loop. */
  lemma DrainStep(d: Directory, s: State, picks: seq<Uuid>, q: Uuid, draw: nat -> (Uuid, int),
                  mid: State, s': State, err: Reply)
    requires Folds(d, s, picks, draw, mid) && Oldest(mid.reqs, q)
    requires Processed(mid, DoRefund(q, draw(|picks|).0, draw(|picks|).1), s', err)
    ensures err == Ok ==> Folds(d, s, picks + [q], draw, s') && |PendingOf(s'.reqs)| < |PendingOf(mid.reqs)|
    ensures err != Ok ==>
              && err != NoPendingRequests
              && Drained(d, s, picks + [q], draw, s', err) && OldestFirst(s.reqs, picks + [q])
              && s'.reqs == Marked(s.reqs, picks, if err == MerchantInsufficientBalance then {q} else {})
  {
    hide ApplyRefund;
    hide RunAll;
    hide AllCommit;
    hide Marked;
    hide OldestFirst;
    hide ApplyMarkFailed;
    hide RefundOps;
    var op := DoRefund(q, draw(|picks|).0, draw(|picks|).1);
    var ops := RefundOps(picks, draw);
    ProcessedStatus(mid, op, s', err);
    MarkedPending(s.reqs, picks, q);
    OldestFirstSnoc(s.reqs, picks, q);
    RefundOpsSnoc(picks, q, draw);
    RunAllSnoc(d, s, ops, op);
    assert Apply(d, mid, op) == ApplyRefund(mid, op);
    if err == Ok {
      AllCommitSnoc(d, s, ops, op);
      FewerPending(mid.reqs, q);
    } else {
      LengthOfOps(picks, draw);
      assert (ops + [op])[..|picks|] == ops && (ops + [op])[|picks|] == op;
    }
  }

  lemma LengthOfOps(picks: seq<Uuid>, draw: nat -> (Uuid, int))
    ensures |RefundOps(picks, draw)| == |picks|
  {
  }
}
