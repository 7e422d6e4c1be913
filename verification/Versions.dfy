// The version column: it counts committed updates, and with the balance id it determines the row.
module Versions {
  import opened Base
  import opened Ledger
  import opened Serial

  /** The balances a committed operation wrote, each exactly once. */
  function WriteSet(d: Directory, s: State, op: Op): set<BalanceId>
    requires Apply(d, s, op).Committed?
  {
    match op
    case DoTopup(identity, _, _, _, _) => {d.identity[identity]}
    case DoTopupWebhook(_, _, _, _, _, _, _) => {Find(s.log, ParentRef(op)).value.dst}
    case DoWithdraw(identity, _, _, _, _) => {d.identity[identity]}
    case DoPayoutWebhook(_, _, _, _, _, _, _) => {Find(s.log, ParentRef(op)).value.src}
    case DoTransfer(identity, _, email, _, _, _) => {d.identity[identity], d.email[email]}
    case DoPay(user, merchant, _, _, _, _, _, _) => {d.user[user], d.merchant[merchant], REVENUE}
    case DoRequestRefund(_, _, _) => {}
    case DoRefund(request, _, _) =>
      var t := Find(s.log, s.reqs[request].ref).value;
      {t.dst, t.src}
    case DoMarkFailed(_) => {}
  }

  /** Written at most once and then one version up; otherwise untouched. */
  lemma ApplyVersions(d: Directory, s: State, op: Op, b: BalanceId)
    requires Apply(d, s, op).Committed? && b in s.rows
    ensures b in Apply(d, s, op).s.rows
    ensures var s' := Apply(d, s, op).s;
            if b in WriteSet(d, s, op) then s'.rows[b].version == s.rows[b].version + 1
            else s'.rows[b] == s.rows[b]
  {
    hide Wraps;
    hide Int64;
    hide CanInsert;
  }

  /** Operations update balances; none appears or disappears. */
  lemma ApplyKeepsKeys(d: Directory, s: State, op: Op)
    ensures After(s, Apply(d, s, op)).rows.Keys == s.rows.Keys
  {
    hide Updated;
    hide SettledRow;
    hide CanInsert;
  }

  lemma {:induction false} RunKeepsKeys(d: Directory, s: State, ops: seq<Op>)
    ensures RunAll(d, s, ops).rows.Keys == s.rows.Keys
    decreases |ops|
  {
    hide Apply;
    if ops != [] {
      var n := |ops| - 1;
      RunKeepsKeys(d, s, ops[..n]);
      ApplyKeepsKeys(d, RunAll(d, s, ops[..n]), ops[n]);
    }
  }

  function Writes(d: Directory, s: State, ops: seq<Op>, b: BalanceId): nat {
    if ops == [] then 0
    else
      var n := |ops| - 1;
      var mid := RunAll(d, s, ops[..n]);
      Writes(d, s, ops[..n], b)
      + (if Apply(d, mid, ops[n]).Committed? && b in WriteSet(d, mid, ops[n]) then 1 else 0)
  }

  /** No lost updates: a version is the number of committed updates of its row. */
  lemma {:induction false} VersionCountsWrites(d: Directory, s: State, ops: seq<Op>, b: BalanceId)
    requires b in s.rows
    ensures b in RunAll(d, s, ops).rows
    ensures RunAll(d, s, ops).rows[b].version == s.rows[b].version + Writes(d, s, ops, b)
    decreases |ops|
  {
    hide Apply;
    if ops != [] {
      var n := |ops| - 1;
      VersionCountsWrites(d, s, ops[..n], b);
      var mid := RunAll(d, s, ops[..n]);
      if Apply(d, mid, ops[n]).Committed? {
        ApplyVersions(d, mid, ops[n], b);
      }
    }
  }

  /** Versions never go back, and while one stands still so does the whole row. */
  lemma {:induction false} VersionDeterminesRow(d: Directory, s: State, ops: seq<Op>, i: nat, b: BalanceId)
    requires i <= |ops| && b in s.rows
    ensures b in RunAll(d, s, ops[..i]).rows && b in RunAll(d, s, ops).rows
    ensures var r, r' := RunAll(d, s, ops[..i]).rows[b], RunAll(d, s, ops).rows[b];
            r.version <= r'.version && (r.version == r'.version ==> r == r')
    decreases |ops|
  {
    hide Apply;
    VersionCountsWrites(d, s, ops, b);
    VersionCountsWrites(d, s, ops[..i], b);
    if i == |ops| {
      assert ops[..i] == ops;
    } else {
      var n := |ops| - 1;
      assert ops[..n][..i] == ops[..i];
      VersionDeterminesRow(d, s, ops[..n], i, b);
      var mid := RunAll(d, s, ops[..n]);
      if Apply(d, mid, ops[n]).Committed? {
        ApplyVersions(d, mid, ops[n], b);
      }
    }
  }

  /** A higher version than at position i means that an operation since then wrote the row. */
  lemma {:induction false} NewerVersionHasAWriter(d: Directory, s: State, ops: seq<Op>, i: nat, b: BalanceId)
      returns (j: nat)
    requires i <= |ops| && b in s.rows
    requires b in RunAll(d, s, ops[..i]).rows && b in RunAll(d, s, ops).rows
    requires RunAll(d, s, ops[..i]).rows[b].version != RunAll(d, s, ops).rows[b].version
    ensures i <= j < |ops|
    ensures var mid := RunAll(d, s, ops[..j]); Apply(d, mid, ops[j]).Committed? && b in WriteSet(d, mid, ops[j])
    decreases |ops|
  {
    hide Apply;
    assert ops[..|ops|] == ops;
    j := |ops| - 1;
    var mid := RunAll(d, s, ops[..j]);
    VersionCountsWrites(d, s, ops[..j], b);
    if !(Apply(d, mid, ops[j]).Committed? && b in WriteSet(d, mid, ops[j])) {
      if Apply(d, mid, ops[j]).Committed? {
        ApplyVersions(d, mid, ops[j], b);
      }
      var k := j;
      assert ops[..k][..i] == ops[..i];
      j := NewerVersionHasAWriter(d, s, ops[..k], i, b);
      assert ops[..k][..j] == ops[..j];
    }
  }
}
