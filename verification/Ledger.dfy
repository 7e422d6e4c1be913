// The tables the money operations work on, as values.
module Ledger {
  import opened Base

  type BalanceId = string
  type Uuid = string

  const WORLD: BalanceId := "@World"
  const REVENUE: BalanceId := "@Revenue"
  const MERCHANT_LEDGER: string := "merchant_ledger_id"

  /** A row of `balances`, keyed by balance_id. */
  datatype Row = Row(bal: I64, credit: I64, debit: I64, version: nat, ledger: string)

  datatype Status = Inflight | Applied | Void | Rejected

  /** The description column, which is what tells the kinds of entry apart. */
  datatype Kind = Topup | Withdrawal | P2PTransfer | Payment | PlatformRevenue | Refund

  /** A row of `transactions`. A nil parent uuid is None. */
  datatype Txn = Txn(
    id: Uuid, parent: Option<Uuid>, ref: string, amount: I64,
    src: BalanceId, dst: BalanceId, status: Status, kind: Kind, created: int)

  datatype RequestStatus = Pending | Processing | Completed | Failed

  /** A row of `refund_requests`, keyed by id. */
  datatype Request = Request(ref: string, status: RequestStatus, created: int)

  datatype State = State(
    rows: map<BalanceId, Row>,
    log: seq<Txn>,
    events: set<(string, string)>,
    reqs: map<Uuid, Request>)

  /** The joins of the balance getters: identity, email, user and merchant to balance_id. */
  datatype Directory = Directory(
    identity: map<string, BalanceId>,
    email: map<string, BalanceId>,
    user: map<string, BalanceId>,
    merchant: map<string, BalanceId>)

  predicate Known(index: map<string, BalanceId>, key: string, rows: map<BalanceId, Row>) {
    key in index && index[key] in rows
  }

  /** SELECT ... FROM transactions WHERE reference = ref. */
  function Find(log: seq<Txn>, ref: string): (r: Option<Txn>)
    ensures r.Some? ==> r.value in log && r.value.ref == ref
    ensures r.None? ==> forall t | t in log :: t.ref != ref
  {
    if log == [] then None
    else if log[0].ref == ref then Some(log[0])
    else Find(log[1..], ref)
  }

  /** The primary key on id and the unique constraint on reference (migration 000017). */
  predicate CanInsert(log: seq<Txn>, t: Txn) {
    forall u | u in log :: u.ref != t.ref && u.id != t.id
  }

  /** The partial unique index on refund_requests (migration 000019). */
  predicate HasPending(reqs: map<Uuid, Request>, ref: string) {
    exists q | q in reqs :: reqs[q].ref == ref && reqs[q].status == Pending
  }

  /** strings.Split(ref, "_")[0]. */
  function FirstToken(ref: string): (r: string)
    ensures ref != [] && ref[0] != '_' ==> r != [] && r[0] == ref[0]
  {
    if ref == [] || ref[0] == '_' then [] else [ref[0]] + FirstToken(ref[1..])
  }

  predicate IsPayment(ref: string) {
    FirstToken(ref) == "payment"
  }

  /** Only a reference that starts with 'p' can be taken for a payment. */
  lemma PaymentStartsWithP(ref: string)
    requires IsPayment(ref)
    ensures ref != [] && ref[0] == 'p'
  {
    if ref != [] && ref[0] != '_' { assert FirstToken(ref)[0] == ref[0]; }
  }

  lemma {:induction false} FirstTokenAppend(ref: string, suffix: string)
    ensures FirstToken(ref + "_" + suffix) == FirstToken(ref)
  {
    if ref == [] || ref[0] == '_' {
      assert (ref + "_" + suffix)[0] == '_';
    } else {
      assert (ref + "_" + suffix)[1..] == ref[1..] + "_" + suffix;
      FirstTokenAppend(ref[1..], suffix);
    }
  }

  lemma {:induction false} FindAppend(log: seq<Txn>, more: seq<Txn>, ref: string)
    requires Find(log, ref).Some?
    ensures Find(log + more, ref) == Find(log, ref)
  {
    if log[0].ref != ref {
      assert (log + more)[1..] == log[1..] + more;
      FindAppend(log[1..], more, ref);
    }
  }

  lemma FindBefore(log: seq<Txn>, t: Txn, ref: string)
    requires Find(log + [t], ref).Some? && Find(log + [t], ref).value != t
    ensures Find(log, ref) == Find(log + [t], ref)
  {
    if Find(log, ref).Some? {
      FindAppend(log, [t], ref);
    }
  }
}
