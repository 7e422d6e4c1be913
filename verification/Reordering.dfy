// Any order of delivery: the same deliveries, shuffled, all commit again and leave the same tables.
module Reordering {
  import opened Base
  import opened Ledger
  import opened Serial
  import opened Entries
  import opened Webhooks

  /** The deliveries one after the other; None as soon as one is refused. */
  function Deliver(s: State, xs: seq<Op>): (r: Option<State>)
    requires forall x | x in xs :: IsWebhook(x)
  {
    if xs == [] then Some(s)
    else
      var n := |xs| - 1;
      match Deliver(s, xs[..n])
      case None => None
      case Some(mid) =>
        match ApplyWebhook(mid, xs[n])
        case Committed(s', _) => Some(s')
        case RolledBack(_) => None
  }

  lemma DeliverSnoc(s: State, xs: seq<Op>, x: Op)
    requires (forall y | y in xs :: IsWebhook(y)) && IsWebhook(x)
    ensures forall y | y in xs + [x] :: IsWebhook(y)
    ensures Deliver(s, xs + [x])
            == if Deliver(s, xs).Some? && ApplyWebhook(Deliver(s, xs).value, x).Committed?
               then Some(ApplyWebhook(Deliver(s, xs).value, x).s) else None
  {
    hide ApplyWebhook;
    assert (xs + [x])[..|xs|] == xs;
  }

  lemma {:induction false} DeliverKeepsInv(s: State, xs: seq<Op>)
    requires Inv(s) && (forall x | x in xs :: IsWebhook(x)) && Deliver(s, xs).Some?
    ensures Inv(Deliver(s, xs).value)
  {
    hide ApplyWebhook;
    hide Inv;
    if xs != [] {
      var n := |xs| - 1;
      DeliverKeepsInv(s, xs[..n]);
      WebhookKeepsInv(Deliver(s, xs[..n]).value, xs[n]);
    }
  }

  lemma FindIsUnique(log: seq<Txn>, t: Txn)
    requires Distinct(log) && t in log
    ensures Find(log, t.ref) == Some(t)
  {
  }

  lemma SameMembers<T>(a: seq<T>, b: seq<T>)
    requires multiset(a) == multiset(b)
    ensures forall x :: x in a <==> x in b
  {
    forall x ensures x in a <==> x in b {
      assert x in a <==> x in multiset(a);
      assert x in b <==> x in multiset(b);
    }
  }

  lemma SameFind(log: seq<Txn>, log': seq<Txn>, ref: string)
    requires Distinct(log) && Distinct(log') && multiset(log) == multiset(log')
    ensures Find(log, ref) == Find(log', ref)
  {
    SameMembers(log, log');
    var r := Find(log, ref);
    if r.Some? {
      FindIsUnique(log', r.value);
    }
  }

  lemma SameCanInsert(log: seq<Txn>, log': seq<Txn>, t: Txn)
    requires multiset(log) == multiset(log')
    ensures CanInsert(log, t) <==> CanInsert(log', t)
  {
    SameMembers(log, log');
  }

  lemma SettleRespectsSame(s: State, s': State, op: Op, p: Txn)
    requires SameUpToLogOrder(s, s') && IsWebhook(op) && SettledBalance(op, p) in s.rows
    ensures SameUpToLogOrder(Settle(s, op, p), Settle(s', op, p))
  {
    hide SettledRow;
    hide SettleTxn;
    hide SettledBalance;
    var t := SettleTxn(op, p);
    assert multiset(s.log + [t]) == multiset(s.log) + multiset{t};
    assert multiset(s'.log + [t]) == multiset(s'.log) + multiset{t};
  }

  lemma SameQuestions(s: State, s': State, op: Op)
    requires Inv(s) && Inv(s') && SameUpToLogOrder(s, s') && IsWebhook(op)
    ensures Find(s.log, ParentRef(op)) == Find(s'.log, ParentRef(op))
    ensures forall t :: CanInsert(s.log, t) <==> CanInsert(s'.log, t)
    ensures s.rows == s'.rows && s.events == s'.events
  {
    hide CanInsert;
    hide EntryOk;
    hide RequestOk;
    hide ParentRef;
    SameFind(s.log, s'.log, ParentRef(op));
    forall t ensures CanInsert(s.log, t) <==> CanInsert(s'.log, t) {
      SameCanInsert(s.log, s'.log, t);
    }
  }

  /** A delivery cannot tell two tables apart that differ in log order only. */
  lemma DeliveryRespectsSame(s: State, s': State, op: Op)
    requires Inv(s) && Inv(s') && SameUpToLogOrder(s, s') && IsWebhook(op)
    ensures ApplyWebhook(s, op).Committed? <==> ApplyWebhook(s', op).Committed?
    ensures ApplyWebhook(s, op).Committed? ==> SameUpToLogOrder(ApplyWebhook(s, op).s, ApplyWebhook(s', op).s)
  {
    hide Settle;
    hide SettleTxn;
    hide CanInsert;
    hide Inv;
    hide ParentRef;
    hide SameUpToLogOrder;
    SameQuestions(s, s', op);
    if ApplyWebhook(s, op).Committed? {
      SettleRespectsSame(s, s', op, Find(s.log, ParentRef(op)).value);
    }
  }

  lemma SameTrans(a: State, b: State, c: State)
    requires SameUpToLogOrder(a, b) && SameUpToLogOrder(b, c)
    ensures SameUpToLogOrder(a, c) && SameUpToLogOrder(c, a)
  {
  }

  /** Both end, and in the same tables up to log order. */
  predicate SameEnd(s: State, xs: seq<Op>, ys: seq<Op>)
    requires (forall x | x in xs :: IsWebhook(x)) && (forall y | y in ys :: IsWebhook(y))
  {
    Deliver(s, xs).Some? && Deliver(s, ys).Some? && SameUpToLogOrder(Deliver(s, xs).value, Deliver(s, ys).value)
  }

  /** One more delivery at the end of both. */
  lemma SameEndSnoc(s: State, xs: seq<Op>, ys: seq<Op>, z: Op)
    requires Inv(s) && (forall x | x in xs + [z] :: IsWebhook(x)) && (forall y | y in ys + [z] :: IsWebhook(y))
    requires (forall x | x in xs :: IsWebhook(x)) && (forall y | y in ys :: IsWebhook(y)) && IsWebhook(z)
    requires SameEnd(s, xs, ys) && Deliver(s, xs + [z]).Some?
    ensures SameEnd(s, xs + [z], ys + [z])
  {
    hide ApplyWebhook;
    hide Deliver;
    hide Inv;
    hide SameUpToLogOrder;
    DeliverKeepsInv(s, xs);
    DeliverKeepsInv(s, ys);
    DeliverSnoc(s, xs, z);
    DeliverSnoc(s, ys, z);
    DeliveryRespectsSame(Deliver(s, xs).value, Deliver(s, ys).value, z);
  }

  /** The last two change places. */
  lemma SwapLast(s: State, zs: seq<Op>, x: Op, y: Op)
    requires Inv(s) && (forall z | z in zs :: IsWebhook(z)) && IsWebhook(x) && IsWebhook(y)
    requires Deliver(s, zs + [x] + [y]).Some?
    ensures SameEnd(s, zs + [x] + [y], zs + [y] + [x])
  {
    hide ApplyWebhook;
    hide Deliver;
    hide Inv;
    hide SameUpToLogOrder;
    DeliverSnoc(s, zs, x);
    DeliverSnoc(s, zs + [x], y);
    DeliverKeepsInv(s, zs);
    DeliveriesCommute(Deliver(s, zs).value, x, y);
    DeliverSnoc(s, zs, y);
    DeliverSnoc(s, zs + [y], x);
  }

  /** xs without its i-th element. */
  function Without(xs: seq<Op>, i: nat): (r: seq<Op>)
    requires i < |xs|
    ensures forall x | x in r :: x in xs
  {
    xs[..i] + xs[i + 1..]
  }

  lemma WithoutSnoc(xs: seq<Op>, i: nat, z: Op)
    requires i < |xs|
    ensures Without(xs + [z], i) == Without(xs, i) + [z]
  {
  }

  lemma WithoutLast(xs: seq<Op>)
    requires xs != []
    ensures Without(xs, |xs| - 1) + [xs[|xs| - 1]] == xs
  {
  }

  /** A delivery moved to the end. */
  lemma {:induction false} MoveToEnd(s: State, xs: seq<Op>, i: nat)
    requires Inv(s) && i < |xs| && (forall x | x in xs :: IsWebhook(x)) && Deliver(s, xs).Some?
    ensures forall x | x in Without(xs, i) + [xs[i]] :: IsWebhook(x)
    ensures SameEnd(s, xs, Without(xs, i) + [xs[i]])
    decreases |xs|
  {
    hide ApplyWebhook;
    hide Inv;
    hide Deliver;
    hide SameUpToLogOrder;
    hide Without;
    hide IsWebhook;
    var m := |xs| - 1;
    if i == m {
      WithoutLast(xs);
      SameItself(s, xs);
    } else {
      var most, y, z := xs[..m], xs[i], xs[m];
      assert xs == most + [z];
      WithoutSnoc(most, i, z);
      var zs := Without(most, i);
      DeliverSnoc(s, most, z);
      MoveToEnd(s, most, i);
      SameEndSnoc(s, most, zs + [y], z);
      SwapLast(s, zs, y, z);
      SameTrans(Deliver(s, xs).value, Deliver(s, zs + [y] + [z]).value, Deliver(s, zs + [z] + [y]).value);
    }
  }

  lemma WithoutElement(xs: seq<Op>, i: nat)
    requires i < |xs|
    ensures multiset(xs) == multiset(Without(xs, i)) + multiset{xs[i]}
  {
    assert xs == xs[..i] + ([xs[i]] + xs[i + 1..]);
    assert multiset(xs) == multiset(xs[..i]) + multiset([xs[i]] + xs[i + 1..]);
    assert multiset([xs[i]] + xs[i + 1..]) == multiset{xs[i]} + multiset(xs[i + 1..]);
    assert multiset(Without(xs, i)) == multiset(xs[..i]) + multiset(xs[i + 1..]);
  }

  lemma CancelElement(a: multiset<Op>, b: multiset<Op>, x: Op)
    requires a + multiset{x} == b + multiset{x}
    ensures a == b
  {
    assert a == (a + multiset{x}) - multiset{x};
    assert b == (b + multiset{x}) - multiset{x};
  }

  /** The last of ys sits somewhere in xs; without it the two are still the same deliveries. */
  lemma TakeOut(xs: seq<Op>, ys: seq<Op>) returns (i: nat)
    requires multiset(xs) == multiset(ys) && ys != []
    ensures i < |xs| && xs[i] == ys[|ys| - 1]
    ensures multiset(Without(xs, i)) == multiset(ys[..|ys| - 1])
  {
    hide Without;
    var n := |ys| - 1;
    SameMembers(xs, ys);
    assert ys[n] in ys;
    i :| 0 <= i < |xs| && xs[i] == ys[n];
    WithoutElement(xs, i);
    assert ys == ys[..n] + [ys[n]];
    assert multiset(ys) == multiset(ys[..n]) + multiset{ys[n]};
    CancelElement(multiset(Without(xs, i)), multiset(ys[..n]), ys[n]);
  }

  lemma EmptyLike(xs: seq<Op>)
    requires multiset(xs) == multiset([])
    ensures xs == []
  {
    assert |multiset(xs)| == |xs|;
  }

  /** Committed deliveries, in any other order, commit as well and leave the same tables up to log order. */
  lemma {:induction false} AnyOrder(s: State, xs: seq<Op>, ys: seq<Op>)
    requires Inv(s) && (forall x | x in xs :: IsWebhook(x)) && multiset(xs) == multiset(ys) && Deliver(s, xs).Some?
    ensures forall y | y in ys :: IsWebhook(y)
    ensures SameEnd(s, xs, ys)
    decreases |ys|
  {
    hide ApplyWebhook;
    hide Inv;
    hide Deliver;
    hide SameUpToLogOrder;
    hide Without;
    hide IsWebhook;
    SameMembers(xs, ys);
    if ys == [] {
      EmptyLike(xs);
      SameItself(s, xs);
    } else {
      var n := |ys| - 1;
      var y := ys[n];
      var i := TakeOut(xs, ys);
      var zs := Without(xs, i);
      assert ys == ys[..n] + [y];
      MoveToEnd(s, xs, i);
      DeliverSnoc(s, zs, y);
      AnyOrder(s, zs, ys[..n]);
      SameEndSnoc(s, zs, ys[..n], y);
      SameTrans(Deliver(s, xs).value, Deliver(s, zs + [y]).value, Deliver(s, ys).value);
    }
  }

  lemma SameItself(s: State, xs: seq<Op>)
    requires (forall x | x in xs :: IsWebhook(x)) && Deliver(s, xs).Some?
    ensures SameEnd(s, xs, xs)
  {
  }
}
