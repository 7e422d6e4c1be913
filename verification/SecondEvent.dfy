// What a second event for one gateway reference can do: a run of the system in which a customer who
// was topped up once is credited twice.
module SecondEvent {
  import opened Base
  import opened Ledger
  import opened Serial
  import opened Entries
  import opened Webhooks
  import opened Inflight
  import opened Overdraft
  import opened Protocol
  import opened Commits
  import opened SerialRuns
  import opened SecondWorker

  /** The delivery of the same outcome under another event id. */
  const AGAIN: Op := DoTopupWebhook("s", "f", "g", "succeeded", "333", "ccc", 0)

  /** The top-up and its settlement, as they are logged. */
  function ToppedUp(): Txn {
    TopupTxn(TOPUP, "a")
  }

  function Delivered(): seq<Txn> {
    [ToppedUp(), SettleTxn(DELIVERY, ToppedUp())]
  }

  lemma SettledOnce(ops: seq<Op>)
    requires ops == [TOPUP, DELIVERY]
    ensures OneEventPerReference(ops) && Settled(Delivered(), ToppedUp())
  {
    hide EventOf;
    var c := Delivered()[1];
    assert c in Delivered() && Settles(c, ToppedUp());
  }

  lemma DeliversAgain(d: Directory, s: State)
    requires Now(s, 1000, 0, 3, 9) && s.rows["a"].credit == 0 && s.log == Delivered() && s.events == {("s", "e")}
    ensures Apply(d, s, AGAIN).Committed?
    ensures var s' := Apply(d, s, AGAIN).s;
            "a" in s'.rows && s'.rows["a"].bal == 2000 && s'.rows["a"].credit == -1000
  {
    hide Wraps;
    var p := ToppedUp();
    assert "f" != "e" by { assert "f"[0] != "e"[0]; }
    assert Find(s.log[..1], "topup_" + "g") == Some(p);
    FindAppend(s.log[..1], [s.log[1]], "topup_" + "g");
    assert s.log == s.log[..1] + [s.log[1]];
    assert |"topup_" + "ccc"| == 9;
    LongerIsNew(s, 1000, 0, SettleTxn(AGAIN, p));
  }

  /** The second delivery meets a reservation that is settled, so the in-flight columns part from it. */
  lemma NoLongerExact(d: Directory, init: State, s: State)
    requires DirectoryOk(d) && Fresh(init) && s == RunAll(d, init, [TOPUP, DELIVERY]) && s.log == Delivered()
    requires Apply(d, s, AGAIN).Committed?
    ensures InflightExact(s) && !InflightExact(Apply(d, s, AGAIN).s)
  {
    hide RunAll;
    hide ApplyWebhook;
    hide InflightExact;
    SettledOnce([TOPUP, DELIVERY]);
    RunKeepsInv(d, init, [TOPUP, DELIVERY]);
    RunKeepsTracked(d, init, [TOPUP, DELIVERY]);
    var p := DeliveryExactIff(s, AGAIN);
    assert p in s.log && ParentRef(AGAIN) == ToppedUp().ref;
  }

  /** What the second delivery leaves. */
  ghost predicate CreditedTwice(s: State) {
    "a" in s.rows && s.rows["a"].bal == 2000 && s.rows["a"].credit == -1000 && !InflightExact(s)
  }

  lemma DeliveredTwice(d: Directory, init: State) returns (s: State)
    requires DirectoryOk(d) && Fresh(init) && TheDirectory(d) && Now(init, 0, 0, 0, 0)
    requires init.log == [] && init.events == {} && init.reqs == map[] && init.rows["a"].credit == 0
    ensures Reaches(d, init, [TOPUP, DELIVERY, AGAIN], s) && CreditedTwice(s)
  {
    hide Apply;
    hide Plausible;
    hide RunAll;
    hide InflightExact;
    hide Fresh;
    hide DirectoryOk;
    hide TheDirectory;
    Starts(d, init);
    Tops(d, init);
    s := Goes(d, init, [], init, TOPUP);
    Delivers(d, s);
    s := Goes(d, init, [] + [TOPUP], s, DELIVERY);
    assert [] + [TOPUP] + [DELIVERY] == [TOPUP, DELIVERY];
    DeliversAgain(d, s);
    NoLongerExact(d, init, s);
    s := Goes(d, init, [TOPUP, DELIVERY], s, AGAIN);
    assert [TOPUP, DELIVERY] + [AGAIN] == [TOPUP, DELIVERY, AGAIN];
  }

  /**
   * A run of the system from a fresh database: a top-up of 1000, its delivery, and a delivery of the
   * same outcome under another event id. The customer holds 2000, and less than nothing is in flight.
   */
  lemma TwoEventsCreditTwice() returns (d: Directory, trace: seq<Sys>)
    ensures DirectoryOk(d) && Run(d, trace) && Fresh(trace[0].init)
    ensures Last(trace).db == RunAll(d, trace[0].init, [TOPUP, DELIVERY, AGAIN]) && TOPUP.amount == 1000
    ensures CreditedTwice(Last(trace).db)
  {
    hide Apply;
    hide Run;
    hide RunAll;
    hide Plausible;
    hide CreditedTwice;
    hide AllReplied;
    hide SysOk;
    var init;
    d, init := TwoCustomers();
    var s := DeliveredTwice(d, init);
    trace := SerialRunHappens(d, init, [TOPUP, DELIVERY, AGAIN]);
  }
}
