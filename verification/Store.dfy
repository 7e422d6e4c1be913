// The mutable side of the store: big.Ints, the structs the getters fill, and the tables behind them.
module Store {
  import opened Base
  import opened Ledger
  import opened Serial

  /** big.Int: each operation overwrites its receiver and hands it back. */
  class BigInt {
    var v: int

    constructor (x: int)
      ensures v == x
    {
      v := x;
    }

    method Add(x: BigInt, y: BigInt) returns (z: BigInt)
      modifies this
      ensures z == this && v == old(x.v) + old(y.v)
    {
      v := x.v + y.v;
      z := this;
    }

    method Sub(x: BigInt, y: BigInt) returns (z: BigInt)
      modifies this
      ensures z == this && v == old(x.v) - old(y.v)
    {
      v := x.v - y.v;
      z := this;
    }

    method Mul(x: BigInt, y: BigInt) returns (z: BigInt)
      modifies this
      ensures z == this && v == old(x.v) * old(y.v)
    {
      v := x.v * y.v;
      z := this;
    }

    /** big.Int.Div is Euclidean, as `/` is here. */
    method Div(x: BigInt, y: BigInt) returns (z: BigInt)
      requires y.v != 0
      modifies this
      ensures z == this && v == old(x.v) / old(y.v)
    {
      v := x.v / y.v;
      z := this;
    }

    /** Negative, zero or positive as this is below, at or above y. */
    function Cmp(y: BigInt): (c: int)
      reads this, y
      ensures c < 0 <==> v < y.v
      ensures c == 0 <==> v == y.v
    {
      if v < y.v then -1 else if v == y.v then 0 else 1
    }
  }

  /** A row of `balances` as a getter hands it out. */
  class Balance {
    const id: BalanceId
    const ledger: string
    const balance: BigInt
    const inflightCredit: BigInt
    const inflightDebit: BigInt
    var version: nat

    constructor (id: BalanceId, row: Row)
      ensures this.id == id && IsRow(row) && fresh(balance) && fresh(inflightCredit) && fresh(inflightDebit)
    {
      this.id := id;
      ledger := row.ledger;
      balance := new BigInt(row.bal);
      inflightCredit := new BigInt(row.credit);
      inflightDebit := new BigInt(row.debit);
      version := row.version;
    }

    /** The struct has the row's contents, in three numbers of its own. */
    predicate IsRow(row: Row)
      reads this, balance, inflightCredit, inflightDebit
    {
      && balance != inflightCredit && balance != inflightDebit && inflightCredit != inflightDebit
      && balance.v == row.bal && inflightCredit.v == row.credit && inflightDebit.v == row.debit
      && version == row.version && ledger == row.ledger
    }

    predicate Owns(x: BigInt) {
      x == balance || x == inflightCredit || x == inflightDebit
    }
  }

  /** The two structs share no number. */
  predicate Apart(a: Balance, b: Balance) {
    a != b && !a.Owns(b.balance) && !a.Owns(b.inflightCredit) && !a.Owns(b.inflightDebit)
  }

  /** A row of `transactions` as the services build it and GetByRef fills it. */
  class Transaction {
    const id: Uuid
    const parent: Option<Uuid>
    const reference: string
    const preciseAmount: BigInt
    const source: BalanceId
    const destination: BalanceId
    const status: Status
    const kind: Kind
    const created: int

    constructor (id: Uuid, parent: Option<Uuid>, reference: string, preciseAmount: BigInt,
                 source: BalanceId, destination: BalanceId, status: Status, kind: Kind, created: int)
      ensures this.id == id && this.parent == parent && this.reference == reference
      ensures this.preciseAmount == preciseAmount && this.source == source && this.destination == destination
      ensures this.status == status && this.kind == kind && this.created == created
    {
      this.id, this.parent, this.reference, this.preciseAmount := id, parent, reference, preciseAmount;
      this.source, this.destination, this.status, this.kind, this.created := source, destination, status, kind, created;
    }

    /** The row an INSERT of this struct writes while its amount is v. */
    function Entry(v: int): Txn {
      Txn(id, parent, reference, Int64(v), source, destination, status, kind, created)
    }
  }

  /** A call left the tables, and returned, exactly as the outcome of its serial operation says. */
  predicate Performs(s: State, o: Outcome, s': State, err: Reply) {
    s' == After(s, o) && err == o.reply
  }

  /** The same of a closure, before WithTx commits what it did or takes it back. */
  predicate PerformsInTx(o: Outcome, s': State, err: Reply) {
    err == o.reply && (o.Committed? <==> err == Ok) && (err == Ok ==> s' == o.s)
  }

  /** What a statement outside the open transaction sees. */
  function OutsideTx(state: State, begun: Option<State>): State {
    if begun.Some? then begun.value else state
  }

  class Database {
    const directory: Directory
    var state: State
    var begun: Option<State>

    constructor (directory: Directory, state: State)
      ensures this.directory == directory && this.state == state && begun == None
    {
      this.directory, this.state, begun := directory, state, None;
    }

    // ----- WithTx: BeginTx, the closure, EndTx with what the closure returned -----

    method BeginTx()
      requires begun.None?
      modifies this
      ensures state == old(state) && begun == Some(old(state))
    {
      begun := Some(state);
    }

    method EndTx(err: Reply)
      requires begun.Some?
      modifies this
      ensures begun == None && state == if err == Ok then old(state) else old(begun.value)
    {
      if err != Ok {
        state := begun.value;
      }
      begun := None;
    }

    // ----- balances -----

    /** The four getters that join bypass the open transaction. */
    method GetBy(index: map<string, BalanceId>, key: string) returns (b: Option<Balance>)
      ensures b.Some? <==> Known(index, key, OutsideTx(state, begun).rows)
      ensures b.Some? ==>
                && fresh(b.value) && fresh(b.value.balance)
                && fresh(b.value.inflightCredit) && fresh(b.value.inflightDebit)
                && b.value.id == index[key] && b.value.IsRow(OutsideTx(state, begun).rows[index[key]])
    {
      if Known(index, key, OutsideTx(state, begun).rows) {
        var found := new Balance(index[key], OutsideTx(state, begun).rows[index[key]]);
        b := Some(found);
      } else {
        b := None;
      }
    }

    /** GetByBalanceID runs inside the open transaction. */
    method GetByBalanceID(id: BalanceId) returns (b: Option<Balance>)
      ensures b.Some? <==> id in state.rows
      ensures b.Some? ==>
                && fresh(b.value) && fresh(b.value.balance)
                && fresh(b.value.inflightCredit) && fresh(b.value.inflightDebit)
                && b.value.id == id && b.value.IsRow(state.rows[id])
    {
      if id in state.rows {
        var found := new Balance(id, state.rows[id]);
        b := Some(found);
      } else {
        b := None;
      }
    }

    /** Compare-and-set on the version; on success the struct follows the row. */
    method UpdateBalance(b: Balance) returns (err: Reply)
      modifies this`state, b`version
      ensures err == old(if b.id in state.rows && state.rows[b.id].version == b.version then Ok else OptimisticLock)
      ensures err == Ok ==>
                && b.version == old(b.version) + 1
                && state == old(state.(rows := state.rows[b.id :=
                     Updated(state.rows[b.id], b.balance.v, b.inflightCredit.v, b.inflightDebit.v)]))
      ensures err != Ok ==> state == old(state) && b.version == old(b.version)
    {
      if b.id in state.rows && state.rows[b.id].version == b.version {
        var row := Updated(state.rows[b.id], b.balance.v, b.inflightCredit.v, b.inflightDebit.v);
        state := state.(rows := state.rows[b.id := row]);
        b.version := row.version;
        err := Ok;
      } else {
        err := OptimisticLock;
      }
    }

    // ----- transactions -----

    method Record(t: Transaction) returns (err: Reply)
      modifies this`state
      ensures err == old(if CanInsert(state.log, t.Entry(t.preciseAmount.v)) then Ok else UniqueViolation)
      ensures state == if err == Ok then old(state.(log := state.log + [t.Entry(t.preciseAmount.v)])) else old(state)
    {
      if forall u | u in state.log :: u.ref != t.reference && u.id != t.id {
        state := state.(log := state.log + [t.Entry(t.preciseAmount.v)]);
        err := Ok;
      } else {
        err := UniqueViolation;
      }
    }

    method GetByRef(ref: string) returns (t: Option<Transaction>)
      ensures t.Some? <==> Find(state.log, ref).Some?
      ensures t.Some? ==>
                && fresh(t.value) && fresh(t.value.preciseAmount)
                && t.value.Entry(t.value.preciseAmount.v) == Find(state.log, ref).value
                && t.value.preciseAmount.v == Find(state.log, ref).value.amount
    {
      t := None;
      match Find(state.log, ref)
      case None =>
      case Some(e) =>
        var amount := new BigInt(e.amount);
        var found := new Transaction(e.id, e.parent, e.ref, amount, e.src, e.dst, e.status, e.kind, e.created);
        t := Some(found);
    }

    // ----- webhook_event_ids -----

    /** INSERT ... ON CONFLICT DO NOTHING: was the event new? */
    method MarkProcessed(source: string, event: string) returns (isNew: bool)
      modifies this`state
      ensures isNew <==> (source, event) !in old(state).events
      ensures state == old(state).(events := old(state).events + {(source, event)})
    {
      isNew := (source, event) !in state.events;
      state := state.(events := state.events + {(source, event)});
    }

    // ----- refund_requests -----

    method Create(q: Uuid, r: Request) returns (err: Reply)
      requires r.status == Pending
      modifies this`state
      ensures err == if q in old(state).reqs || HasPending(old(state).reqs, r.ref) then UniqueViolation else Ok
      ensures state == if err == Ok then old(state).(reqs := old(state).reqs[q := r]) else old(state)
    {
      if q in state.reqs || HasPending(state.reqs, r.ref) {
        err := UniqueViolation;
      } else {
        state := state.(reqs := state.reqs[q := r]);
        err := Ok;
      }
    }

    /** One of the oldest pending requests, now processing, with its reference; none when none is pending. */
    method ClaimPending() returns (q: Option<(Uuid, string)>)
      modifies this`state
      ensures q.Some? <==> PendingOf(old(state).reqs) != {}
      ensures q.Some? ==>
                && Oldest(old(state).reqs, q.value.0) && old(state).reqs[q.value.0].ref == q.value.1
                && state == old(state).(reqs :=
                     old(state).reqs[q.value.0 := old(state).reqs[q.value.0].(status := Processing)])
      ensures q.None? ==> state == old(state)
    {
      if PendingOf(state.reqs) == {} {
        q := None;
      } else {
        OldestExists(state.reqs);
        var u :| u in state.reqs.Keys && Oldest(state.reqs, u);
        q := Some((u, state.reqs[u].ref));
        state := state.(reqs := state.reqs[u := state.reqs[u].(status := Processing)]);
      }
    }

    /** Updates whatever row there is, whatever its status. */
    method UpdateStatus(q: Uuid, status: RequestStatus)
      modifies this`state
      ensures state == if q in old(state).reqs
                       then old(state).(reqs := old(state).reqs[q := old(state).reqs[q].(status := status)])
                       else old(state)
    {
      if q in state.reqs {
        state := state.(reqs := state.reqs[q := state.reqs[q].(status := status)]);
      }
    }
  }

  function PendingOf(reqs: map<Uuid, Request>): set<Uuid> {
    set q | q in reqs && reqs[q].status == Pending
  }

  /** ORDER BY created_at LIMIT 1; ties are the database's choice. */
  predicate Oldest(reqs: map<Uuid, Request>, q: Uuid) {
    q in PendingOf(reqs) && forall u | u in PendingOf(reqs) :: reqs[q].created <= reqs[u].created
  }

  lemma OldestExists(reqs: map<Uuid, Request>)
    requires PendingOf(reqs) != {}
    ensures exists q | q in reqs.Keys :: Oldest(reqs, q)
  {
    var q := OldestOf(reqs, PendingOf(reqs));
    assert q in reqs.Keys && Oldest(reqs, q);
  }

  lemma {:induction false} OldestOf(reqs: map<Uuid, Request>, qs: set<Uuid>) returns (q: Uuid)
    requires qs != {} && qs <= reqs.Keys
    ensures q in qs && forall u | u in qs :: reqs[q].created <= reqs[u].created
  {
    q :| q in qs;
    if qs != {q} {
      var p := OldestOf(reqs, qs - {q});
      if reqs[p].created < reqs[q].created {
        q := p;
      }
    }
  }
}
