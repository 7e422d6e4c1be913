// Recorded events and settlement entries correspond one to one, through the deliveries that made them.
module Deliveries {
  import opened Base
  import opened Ledger
  import opened Serial
  import opened Entries
  import opened Webhooks

  /** The j-th operation is a committed delivery of event e, and t is the child it logged. */
  predicate Delivered(d: Directory, s: State, ops: seq<Op>, j: nat, e: (string, string), t: Txn) {
    && j < |ops| && IsWebhook(ops[j]) && EventOf(ops[j]) == e
    && var mid := RunAll(d, s, ops[..j]);
       && Apply(d, mid, ops[j]).Committed? && Find(mid.log, ParentRef(ops[j])).Some?
       && t == SettleTxn(ops[j], Find(mid.log, ParentRef(ops[j])).value)
  }

  /** Every event has its delivery, every settlement has its delivery, and no two deliveries share either. */
  ghost predicate OneToOne(d: Directory, init: State, ops: seq<Op>) {
    var s := RunAll(d, init, ops);
    && (forall e | e in s.events :: exists j, t :: Delivered(d, init, ops, j, e, t))
    && (forall t | t in s.log && IsSettlement(t) :: exists j, e :: Delivered(d, init, ops, j, e, t))
    && (forall j, e, t | Delivered(d, init, ops, j, e, t) :: e in s.events && t in s.log && IsSettlement(t))
    && (forall i, e, t, j, f, u | Delivered(d, init, ops, i, e, t) && Delivered(d, init, ops, j, f, u) ::
          (i == j <==> e == f) && (i == j <==> t == u))
  }

  /** A committed delivery records its event and logs its child, and that is all. */
  lemma DeliveryEffect(d: Directory, s: State, op: Op) returns (t: Txn)
    requires Inv(s) && IsWebhook(op) && Apply(d, s, op).Committed?
    ensures Find(s.log, ParentRef(op)).Some? && t == SettleTxn(op, Find(s.log, ParentRef(op)).value)
    ensures IsSettlement(t) && CanInsert(s.log, t)
    ensures var s' := Apply(d, s, op).s; s'.events == s.events + {EventOf(op)} && s'.log == s.log + [t]
  {
    hide SettledRow;
    hide Inv;
    hide CanInsert;
    var p := DeliverySettlesItsOwnKind(s, op);
    t := SettleTxn(op, p);
  }

  /** Nothing else records an event or settles a reservation. */
  lemma OthersSettleNothing(d: Directory, s: State, op: Op)
    requires !IsWebhook(op)
    ensures var s' := After(s, Apply(d, s, op));
            s'.events == s.events && forall t | t in s'.log && IsSettlement(t) :: t in s.log
  {
    hide Updated;
    hide CanInsert;
    hide Find;
    hide HasPending;
  }

  /** A delivery of a shorter run is one of the longer run. */
  lemma DeliveredStays(d: Directory, s: State, ops: seq<Op>, n: nat, j: nat, e: (string, string), t: Txn)
    requires n <= |ops| && Delivered(d, s, ops[..n], j, e, t)
    ensures Delivered(d, s, ops, j, e, t)
  {
    assert ops[..n][..j] == ops[..j];
  }

  lemma {:induction false} EventWasDelivered(d: Directory, init: State, ops: seq<Op>, e: (string, string))
      returns (j: nat, t: Txn)
    requires DirectoryOk(d) && Fresh(init) && e in RunAll(d, init, ops).events
    ensures Delivered(d, init, ops, j, e, t)
    decreases |ops|
  {
    hide Apply;
    hide Inv;
    var n := |ops| - 1;
    var mid := RunAll(d, init, ops[..n]);
    if e in mid.events {
      j, t := EventWasDelivered(d, init, ops[..n], e);
      DeliveredStays(d, init, ops, n, j, e, t);
    } else {
      RunKeepsInv(d, init, ops[..n]);
      if !IsWebhook(ops[n]) { OthersSettleNothing(d, mid, ops[n]); }
      t := DeliveryEffect(d, mid, ops[n]);
      j := n;
    }
  }

  lemma {:induction false} SettlementWasDelivered(d: Directory, init: State, ops: seq<Op>, t: Txn)
      returns (j: nat, e: (string, string))
    requires DirectoryOk(d) && Fresh(init) && t in RunAll(d, init, ops).log && IsSettlement(t)
    ensures Delivered(d, init, ops, j, e, t)
    decreases |ops|
  {
    hide Apply;
    hide Inv;
    var n := |ops| - 1;
    var mid := RunAll(d, init, ops[..n]);
    if t in mid.log {
      j, e := SettlementWasDelivered(d, init, ops[..n], t);
      DeliveredStays(d, init, ops, n, j, e, t);
    } else {
      RunKeepsInv(d, init, ops[..n]);
      if !IsWebhook(ops[n]) { OthersSettleNothing(d, mid, ops[n]); }
      var u := DeliveryEffect(d, mid, ops[n]);
      j, e := n, EventOf(ops[n]);
    }
  }

  lemma FreshIsInv(init: State)
    requires Fresh(init)
    ensures Inv(init)
  {
  }

  /** Right after its delivery the event is recorded and the child, new until then, is logged. */
  lemma DeliveryStep(d: Directory, init: State, ops: seq<Op>, j: nat, e: (string, string), t: Txn)
    requires DirectoryOk(d) && Inv(init) && Delivered(d, init, ops, j, e, t)
    ensures var mid, at := RunAll(d, init, ops[..j]), RunAll(d, init, ops[..j + 1]);
            && Inv(at) && IsSettlement(t) && CanInsert(mid.log, t)
            && e in at.events && at.log == mid.log + [t]
  {
    hide Apply;
    hide CanInsert;
    hide Inv;
    hide RunAll;
    var mid := RunAll(d, init, ops[..j]);
    assert ops[..j + 1] == ops[..j] + [ops[j]];
    RunKeepsInv(d, init, ops[..j]);
    RunAllSnoc(d, init, ops[..j], ops[j]);
    var u := DeliveryEffect(d, mid, ops[j]);
    RunKeepsInv(d, init, ops[..j + 1]);
  }

  /** What a delivery left stays recorded and logged. */
  lemma DeliveryLasts(d: Directory, init: State, ops: seq<Op>, j: nat, e: (string, string), t: Txn)
    requires DirectoryOk(d) && Inv(init) && Delivered(d, init, ops, j, e, t)
    ensures IsSettlement(t) && e in RunAll(d, init, ops).events && t in RunAll(d, init, ops).log
    ensures CanInsert(RunAll(d, init, ops[..j]).log, t)
  {
    hide Apply;
    hide CanInsert;
    hide Inv;
    hide RunAll;
    var at := RunAll(d, init, ops[..j + 1]);
    DeliveryStep(d, init, ops, j, e, t);
    assert ops == ops[..j + 1] + ops[j + 1..];
    RunAllConcat(d, init, ops[..j + 1], ops[j + 1..]);
    RunKeepsInv(d, at, ops[j + 1..]);
    assert t in at.log;
  }

  lemma DeliveriesDiffer(d: Directory, init: State, ops: seq<Op>, i: nat, e: (string, string), t: Txn,
                         j: nat, f: (string, string), u: Txn)
    requires DirectoryOk(d) && Inv(init) && i < j
    requires Delivered(d, init, ops, i, e, t) && Delivered(d, init, ops, j, f, u)
    ensures e != f && t != u
  {
    hide Apply;
    hide Inv;
    hide RunAll;
    hide SettleTxn;
    CommittedEventsDiffer(d, init, ops, i, j);
    DeliveryLasts(d, init, ops, j, f, u);
    assert ops[..j][..i] == ops[..i] && ops[..j][i] == ops[i];
    DeliveryLasts(d, init, ops[..j], i, e, t);
  }

  /** Recorded events and settlement children correspond one to one in every run. */
  lemma EventsAreSettlements(d: Directory, init: State, ops: seq<Op>)
    requires DirectoryOk(d) && Fresh(init)
    ensures OneToOne(d, init, ops)
  {
    hide Delivered;
    hide RunAll;
    hide IsSettlement;
    hide Inv;
    hide Fresh;
    var s := RunAll(d, init, ops);
    FreshIsInv(init);
    forall e | e in s.events ensures exists j, t :: Delivered(d, init, ops, j, e, t) {
      var j, t := EventWasDelivered(d, init, ops, e);
    }
    forall t | t in s.log && IsSettlement(t) ensures exists j, e :: Delivered(d, init, ops, j, e, t) {
      var j, e := SettlementWasDelivered(d, init, ops, t);
    }
    forall j, e, t | Delivered(d, init, ops, j, e, t) ensures e in s.events && t in s.log && IsSettlement(t) {
      DeliveryLasts(d, init, ops, j, e, t);
    }
    forall i, e, t, j, f, u | Delivered(d, init, ops, i, e, t) && Delivered(d, init, ops, j, f, u)
      ensures (i == j <==> e == f) && (i == j <==> t == u)
    {
      SameDelivery(d, init, ops, i, e, t, f, u);
      if i < j {
        DeliveriesDiffer(d, init, ops, i, e, t, j, f, u);
      } else if j < i {
        DeliveriesDiffer(d, init, ops, j, f, u, i, e, t);
      }
    }
  }

  lemma SameDelivery(d: Directory, init: State, ops: seq<Op>, i: nat, e: (string, string), t: Txn,
                     f: (string, string), u: Txn)
    ensures Delivered(d, init, ops, i, e, t) && Delivered(d, init, ops, i, f, u) ==> e == f && t == u
  {
  }
}
