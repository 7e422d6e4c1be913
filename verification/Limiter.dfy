// The fixed-window limiter: the check and the increment are two critical sections, so callers that
// are between them can overshoot the limit, by at most one less than there are callers inside.
module Limiter {
  /** A caller that has passed the check; isNew is what it read about the entry. */
  datatype Caller = Caller(ip: string, isNew: bool)

  /** The shared map, the callers between their two critical sections, and the timers running. */
  datatype Gate = Gate(clients: map<string, nat>, inside: seq<Caller>, timers: multiset<string>)

  datatype Event =
    | Enter(ip: string)
    | Increment(i: nat)
    | Reset(ip: string)

  function Count(g: Gate, ip: string): nat {
    if ip in g.clients then g.clients[ip] else 0
  }

  /** The read section of Allow. */
  predicate Admits(limit: int, g: Gate, ip: string) {
    ip !in g.clients || g.clients[ip] < limit
  }

  /** The write section of Allow for a caller that read the given entry. */
  function Incremented(g: Gate, c: Caller): Gate {
    g.(clients := g.clients[c.ip := Count(g, c.ip) + 1],
       timers := if c.isNew then g.timers + multiset{c.ip} else g.timers)
  }

  function WithoutCaller(inside: seq<Caller>, i: nat): seq<Caller>
    requires i < |inside|
  {
    inside[..i] + inside[i + 1..]
  }

  predicate Possible(g: Gate, e: Event) {
    match e
    case Enter(_) => true
    case Increment(i) => i < |g.inside|
    case Reset(ip) => ip in g.timers
  }

  function Next(limit: int, g: Gate, e: Event): Gate
    requires Possible(g, e)
  {
    match e
    case Enter(ip) => if Admits(limit, g, ip) then g.(inside := g.inside + [Caller(ip, ip !in g.clients)]) else g
    case Increment(i) => Incremented(g, g.inside[i]).(inside := WithoutCaller(g.inside, i))
    case Reset(ip) => g.(clients := g.clients - {ip}, timers := g.timers - multiset{ip})
  }

  const EMPTY: Gate := Gate(map[], [], multiset{})

  /** The events happen one after the other from the empty limiter, with at most k callers inside at any time. */
  predicate Happens(limit: int, k: nat, es: seq<Event>)
    decreases |es|, 0
  {
    es == []
    || (var n := |es| - 1;
        && Happens(limit, k, es[..n]) && Possible(GateAfter(limit, k, es[..n]), es[n])
        && |Next(limit, GateAfter(limit, k, es[..n]), es[n]).inside| <= k)
  }

  function GateAfter(limit: int, k: nat, es: seq<Event>): Gate
    requires Happens(limit, k, es)
    decreases |es|, 1
  {
    if es == [] then EMPTY else Next(limit, GateAfter(limit, k, es[..|es| - 1]), es[|es| - 1])
  }

  /** How many of the callers inside are from this address. */
  function Waiting(inside: seq<Caller>, ip: string): nat {
    if inside == [] then 0 else Waiting(inside[1..], ip) + if inside[0].ip == ip then 1 else 0
  }

  lemma {:induction false} WaitingConcat(a: seq<Caller>, b: seq<Caller>, ip: string)
    ensures Waiting(a + b, ip) == Waiting(a, ip) + Waiting(b, ip)
  {
    if a == [] {
      assert a + b == b;
    } else {
      assert (a + b)[1..] == a[1..] + b;
      WaitingConcat(a[1..], b, ip);
    }
  }

  lemma WaitingWithout(inside: seq<Caller>, i: nat, ip: string)
    requires i < |inside|
    ensures Waiting(WithoutCaller(inside, i), ip) == Waiting(inside, ip) - if inside[i].ip == ip then 1 else 0
  {
    assert inside == inside[..i] + ([inside[i]] + inside[i + 1..]);
    WaitingConcat(inside[..i], [inside[i]] + inside[i + 1..], ip);
    WaitingConcat([inside[i]], inside[i + 1..], ip);
    WaitingConcat(inside[..i], inside[i + 1..], ip);
    assert [inside[i]][1..] == [];
  }

  lemma {:induction false} WaitingIsBounded(inside: seq<Caller>, ip: string)
    ensures Waiting(inside, ip) <= |inside|
  {
    if inside != [] {
      WaitingIsBounded(inside[1..], ip);
    }
  }

  /** Those already counted and those about to be. */
  lemma {:induction false} CountedAndWaiting(limit: int, k: nat, es: seq<Event>, ip: string)
    requires limit >= 1 && k >= 1 && Happens(limit, k, es)
    ensures Count(GateAfter(limit, k, es), ip) + Waiting(GateAfter(limit, k, es).inside, ip) <= limit + k - 1
  {
    if es != [] {
      var n := |es| - 1;
      CountedAndWaiting(limit, k, es[..n], ip);
      var g := GateAfter(limit, k, es[..n]);
      var g' := GateAfter(limit, k, es);
      match es[n]
      case Enter(a) =>
        WaitingConcat(g.inside, [Caller(a, a !in g.clients)], ip);
        WaitingIsBounded(g'.inside, ip);
      case Increment(i) => WaitingWithout(g.inside, i, ip);
      case Reset(_) =>
    }
  }

  /** Whatever interleaving of callers and resets: no counter ever exceeds limit + k - 1. */
  lemma LimitHolds(limit: int, k: nat, es: seq<Event>, ip: string)
    requires limit >= 1 && k >= 1 && Happens(limit, k, es)
    ensures Count(GateAfter(limit, k, es), ip) <= limit + k - 1
  {
    CountedAndWaiting(limit, k, es, ip);
  }

  /** Calls from this address that were let through since its last reset. */
  function Admitted(limit: int, k: nat, es: seq<Event>, ip: string): nat
    requires Happens(limit, k, es)
  {
    if es == [] then 0
    else
      var n := |es| - 1;
      var g := GateAfter(limit, k, es[..n]);
      match es[n]
      case Enter(_) => Admitted(limit, k, es[..n], ip)
      case Increment(i) => Admitted(limit, k, es[..n], ip) + if g.inside[i].ip == ip then 1 else 0
      case Reset(a) => if a == ip then 0 else Admitted(limit, k, es[..n], ip)
  }

  /** The counter counts them: calls admitted in one window are bounded as the counter is. */
  lemma {:induction false} CounterCounts(limit: int, k: nat, es: seq<Event>, ip: string)
    requires Happens(limit, k, es)
    ensures Count(GateAfter(limit, k, es), ip) == Admitted(limit, k, es, ip)
  {
    if es != [] {
      CounterCounts(limit, k, es[..|es| - 1], ip);
    }
  }

  // ----- The bound is reached -----

  /** n callers of one address enter and count one after the other. */
  function OneByOne(ip: string, n: nat): seq<Event> {
    if n == 0 then [] else OneByOne(ip, n - 1) + [Enter(ip), Increment(0)]
  }

  lemma HappensSnoc(limit: int, k: nat, es: seq<Event>, e: Event)
    requires Happens(limit, k, es) && Possible(GateAfter(limit, k, es), e)
    requires |Next(limit, GateAfter(limit, k, es), e).inside| <= k
    ensures Happens(limit, k, es + [e]) && GateAfter(limit, k, es + [e]) == Next(limit, GateAfter(limit, k, es), e)
  {
    assert (es + [e])[..|es|] == es;
  }

  lemma {:induction false} OneByOneCounts(limit: int, k: nat, ip: string, n: nat)
    requires k >= 1 && n <= limit
    ensures Happens(limit, k, OneByOne(ip, n))
    ensures var g := GateAfter(limit, k, OneByOne(ip, n)); g.inside == [] && Count(g, ip) == n
  {
    if n > 0 {
      OneByOneCounts(limit, k, ip, n - 1);
      var es := OneByOne(ip, n - 1);
      HappensSnoc(limit, k, es, Enter(ip));
      HappensSnoc(limit, k, es + [Enter(ip)], Increment(0));
      assert es + [Enter(ip)] + [Increment(0)] == es + [Enter(ip), Increment(0)];
    }
  }

  /** n more enter before any of them counts. */
  lemma {:induction false} Crowd(limit: int, k: nat, es: seq<Event>, ip: string, n: nat) returns (all: seq<Event>)
    requires Happens(limit, k, es) && n <= k
    requires GateAfter(limit, k, es).inside == [] && Admits(limit, GateAfter(limit, k, es), ip)
    ensures Happens(limit, k, all)
    ensures var g, g' := GateAfter(limit, k, es), GateAfter(limit, k, all);
            && g'.clients == g.clients && |g'.inside| == n && forall c | c in g'.inside :: c.ip == ip
  {
    if n == 0 {
      all := es;
    } else {
      var most := Crowd(limit, k, es, ip, n - 1);
      HappensSnoc(limit, k, most, Enter(ip));
      all := most + [Enter(ip)];
    }
  }

  /** Those inside count, whatever the counter has become meanwhile. */
  lemma {:induction false} CrowdCounts(limit: int, k: nat, es: seq<Event>, ip: string) returns (all: seq<Event>)
    requires Happens(limit, k, es) && forall c | c in GateAfter(limit, k, es).inside :: c.ip == ip
    ensures Happens(limit, k, all)
    ensures Count(GateAfter(limit, k, all), ip) == Count(GateAfter(limit, k, es), ip) + |GateAfter(limit, k, es).inside|
    decreases |GateAfter(limit, k, es).inside|
  {
    var g := GateAfter(limit, k, es);
    if g.inside == [] {
      all := es;
    } else {
      HappensInside(limit, k, es);
      HappensSnoc(limit, k, es, Increment(0));
      assert WithoutCaller(g.inside, 0) == g.inside[1..];
      all := CrowdCounts(limit, k, es + [Increment(0)], ip);
    }
  }

  lemma HappensInside(limit: int, k: nat, es: seq<Event>)
    requires Happens(limit, k, es)
    ensures |GateAfter(limit, k, es).inside| <= k
  {
  }

  /** For every limit and every k some run reaches limit + k - 1; with one caller at a time that is the limit itself. */
  lemma LimitIsReached(limit: int, k: nat, ip: string) returns (es: seq<Event>)
    requires limit >= 1 && k >= 1
    ensures Happens(limit, k, es) && Count(GateAfter(limit, k, es), ip) == limit + k - 1
  {
    OneByOneCounts(limit, k, ip, limit - 1);
    var crowd := Crowd(limit, k, OneByOne(ip, limit - 1), ip, k);
    es := CrowdCounts(limit, k, crowd, ip);
  }

  // ----- Timers -----

  /** Every counted address has a timer running that will forget it. */
  predicate Timed(g: Gate) {
    forall ip | ip in g.clients :: ip in g.timers
  }

  /** The caller read an entry that a timer has taken away since, and no other timer runs for it. */
  predicate Stale(g: Gate, e: Event) {
    e.Increment? && e.i < |g.inside| && !g.inside[e.i].isNew && g.inside[e.i].ip !in g.timers
  }

  /** An event leaves an address without a timer if and only if it is such a caller's increment. */
  lemma StepTimedIff(limit: int, g: Gate, e: Event)
    requires Timed(g) && Possible(g, e)
    ensures Timed(Next(limit, g, e)) <==> !Stale(g, e)
  {
    var g' := Next(limit, g, e);
    if Stale(g, e) {
      assert g.inside[e.i].ip in g'.clients && g'.timers == g.timers;
    }
  }

  lemma HappensBefore(limit: int, k: nat, es: seq<Event>, j: nat)
    requires Happens(limit, k, es) && j <= |es|
    ensures Happens(limit, k, es[..j])
    decreases |es|
  {
    if j < |es| {
      assert es[..|es| - 1][..j] == es[..j];
      HappensBefore(limit, k, es[..|es| - 1], j);
    } else {
      assert es[..j] == es;
    }
  }

  predicate TimedAt(limit: int, k: nat, es: seq<Event>, j: nat)
    requires Happens(limit, k, es) && j <= |es|
  {
    HappensBefore(limit, k, es, j);
    Timed(GateAfter(limit, k, es[..j]))
  }

  predicate StaleAt(limit: int, k: nat, es: seq<Event>, j: nat)
    requires Happens(limit, k, es) && j < |es|
  {
    HappensBefore(limit, k, es, j);
    Stale(GateAfter(limit, k, es[..j]), es[j])
  }

  lemma TimedAtNext(limit: int, k: nat, es: seq<Event>, j: nat)
    requires Happens(limit, k, es) && j < |es| && TimedAt(limit, k, es, j)
    ensures TimedAt(limit, k, es, j + 1) <==> !StaleAt(limit, k, es, j)
  {
    hide Timed;
    hide Stale;
    HappensBefore(limit, k, es, j + 1);
    assert es[..j + 1][..j] == es[..j];
    StepTimedIff(limit, GateAfter(limit, k, es[..j]), es[j]);
  }

  /** Over a whole run: every counted address always has its timer if and only if no increment is stale. */
  lemma RunTimedIff(limit: int, k: nat, es: seq<Event>)
    requires Happens(limit, k, es)
    ensures (forall j | 0 <= j <= |es| :: TimedAt(limit, k, es, j))
            <==> forall j | 0 <= j < |es| :: !StaleAt(limit, k, es, j)
  {
    hide TimedAt;
    hide StaleAt;
    forall j | 0 <= j < |es| && TimedAt(limit, k, es, j)
      ensures TimedAt(limit, k, es, j + 1) <==> !StaleAt(limit, k, es, j)
    {
      TimedAtNext(limit, k, es, j);
    }
    if forall j | 0 <= j < |es| :: !StaleAt(limit, k, es, j) {
      forall j | 0 <= j <= |es| ensures TimedAt(limit, k, es, j) {
        TimedUpTo(limit, k, es, j);
      }
    } else {
      var j :| 0 <= j < |es| && StaleAt(limit, k, es, j);
      assert !TimedAt(limit, k, es, j) || !TimedAt(limit, k, es, j + 1);
    }
  }

  lemma {:induction false} TimedUpTo(limit: int, k: nat, es: seq<Event>, j: nat)
    requires Happens(limit, k, es) && j <= |es| && forall i | 0 <= i < j :: !StaleAt(limit, k, es, i)
    ensures TimedAt(limit, k, es, j)
  {
    if j > 0 {
      hide TimedAt;
      hide StaleAt;
      TimedUpTo(limit, k, es, j - 1);
      TimedAtNext(limit, k, es, j - 1);
    }
  }

  /** Counted, no timer, and nobody inside who would start one. */
  predicate Stuck(g: Gate, ip: string) {
    ip in g.clients && ip !in g.timers && forall c | c in g.inside :: c.ip == ip ==> !c.isNew
  }

  /** Such an address is never forgotten: its counter only grows from there on. */
  lemma StuckStays(limit: int, g: Gate, e: Event, ip: string)
    requires Stuck(g, ip) && Possible(g, e)
    ensures Stuck(Next(limit, g, e), ip) && Count(g, ip) <= Count(Next(limit, g, e), ip)
  {
  }

  lemma {:induction false} StuckForGood(limit: int, k: nat, es: seq<Event>, j: nat, ip: string)
    requires Happens(limit, k, es) && j <= |es| && Happens(limit, k, es[..j]) && Stuck(GateAfter(limit, k, es[..j]), ip)
    ensures Stuck(GateAfter(limit, k, es), ip)
    ensures Count(GateAfter(limit, k, es[..j]), ip) <= Count(GateAfter(limit, k, es), ip)
    decreases |es|
  {
    hide Stuck;
    hide Count;
    hide Next;
    if j == |es| {
      assert es[..j] == es;
    } else {
      var n := |es| - 1;
      assert es[..n][..j] == es[..j];
      StuckForGood(limit, k, es[..n], j, ip);
      StuckStays(limit, GateAfter(limit, k, es[..n]), es[n], ip);
    }
  }

  /** Calls that come one by one fill the counter up to the limit. */
  lemma {:induction false} FillsUp(limit: int, es: seq<Event>, ip: string) returns (all: seq<Event>)
    requires Happens(limit, 1, es) && GateAfter(limit, 1, es).inside == []
    requires Stuck(GateAfter(limit, 1, es), ip) && Count(GateAfter(limit, 1, es), ip) <= limit
    ensures Happens(limit, 1, all)
    ensures Stuck(GateAfter(limit, 1, all), ip) && Count(GateAfter(limit, 1, all), ip) == limit
    decreases limit - Count(GateAfter(limit, 1, es), ip)
  {
    if Count(GateAfter(limit, 1, es), ip) == limit {
      all := es;
    } else {
      HappensSnoc(limit, 1, es, Enter(ip));
      HappensSnoc(limit, 1, es + [Enter(ip)], Increment(0));
      all := FillsUp(limit, es + [Enter(ip)] + [Increment(0)], ip);
    }
  }

  /** A caller reads the entry, the timer fires, the caller increments: one at a time is enough. */
  lemma LosesItsTimer(limit: int, ip: string) returns (es: seq<Event>)
    requires limit >= 2
    ensures Happens(limit, 1, es)
    ensures var g := GateAfter(limit, 1, es); Stuck(g, ip) && g.inside == [] && Count(g, ip) == 1
  {
    HappensSnoc(limit, 1, [], Enter(ip));
    HappensSnoc(limit, 1, [Enter(ip)], Increment(0));
    HappensSnoc(limit, 1, [Enter(ip)] + [Increment(0)], Enter(ip));
    HappensSnoc(limit, 1, [Enter(ip)] + [Increment(0)] + [Enter(ip)], Reset(ip));
    HappensSnoc(limit, 1, [Enter(ip)] + [Increment(0)] + [Enter(ip)] + [Reset(ip)], Increment(0));
    assert [] + [Enter(ip)] == [Enter(ip)];
    es := [Enter(ip)] + [Increment(0)] + [Enter(ip)] + [Reset(ip)] + [Increment(0)];
  }

  /**
   * From a limit of two on, an address can be refused for good, with one caller at a time: a run that
   * ends with it refused, however the run goes on.
   */
  lemma RefusedForGood(limit: int, ip: string) returns (es: seq<Event>)
    requires limit >= 2
    ensures Happens(limit, 1, es)
    ensures forall more, k: nat | Happens(limit, k, es + more) :: !Admits(limit, GateAfter(limit, k, es + more), ip)
  {
    es := LosesItsTimer(limit, ip);
    es := FillsUp(limit, es, ip);
    forall more, k: nat | Happens(limit, k, es + more)
      ensures !Admits(limit, GateAfter(limit, k, es + more), ip)
    {
      assert (es + more)[..|es|] == es;
      HappensBefore(limit, k, es + more, |es|);
      SameWhoeverCounts(limit, 1, k, es);
      StuckForGood(limit, k, es + more, |es|, ip);
    }
  }

  /** How many callers are allowed inside does not change what happens, only whether it may. */
  lemma {:induction false} SameWhoeverCounts(limit: int, j: nat, k: nat, es: seq<Event>)
    requires Happens(limit, j, es) && Happens(limit, k, es)
    ensures GateAfter(limit, j, es) == GateAfter(limit, k, es)
  {
    if es != [] {
      SameWhoeverCounts(limit, j, k, es[..|es| - 1]);
    }
  }

  /** With a limit of one, whoever is inside found no entry. */
  predicate AllNew(g: Gate) {
    (forall ip | ip in g.clients :: 1 <= g.clients[ip]) && forall c | c in g.inside :: c.isNew
  }

  lemma LimitOneStep(g: Gate, e: Event)
    requires AllNew(g) && Timed(g) && Possible(g, e)
    ensures AllNew(Next(1, g, e)) && Timed(Next(1, g, e))
  {
    StepTimedIff(1, g, e);
  }

  /** So with that limit no timer is ever lost. */
  lemma {:induction false} LimitOneKeepsTimers(k: nat, es: seq<Event>)
    requires Happens(1, k, es)
    ensures AllNew(GateAfter(1, k, es)) && Timed(GateAfter(1, k, es))
  {
    if es != [] {
      hide AllNew;
      hide Timed;
      hide Next;
      LimitOneKeepsTimers(k, es[..|es| - 1]);
      LimitOneStep(GateAfter(1, k, es[..|es| - 1]), es[|es| - 1]);
    }
  }

  // ----- The limiter itself -----

  class FixedWindowLimiter {
    const limit: int
    var clients: map<string, nat>
    var timers: multiset<string>

    constructor (limit: int)
      ensures this.limit == limit && Shared() == EMPTY
    {
      this.limit, clients, timers := limit, map[], multiset{};
    }

    function Shared(): Gate
      reads this
    {
      Gate(clients, [], timers)
    }

    /** Undisturbed, a call is its two sections back to back. */
    method Allow(ip: string) returns (ok: bool)
      modifies this
      ensures ok <==> ip !in old(clients) || old(clients[ip]) < limit
      ensures old(ip !in clients) ==> ip in timers
      ensures old(Timed(Shared())) ==> Timed(Shared())
      ensures Shared() == if ok then old(Incremented(Shared(), Caller(ip, ip !in clients))) else old(Shared())
    {
      var known := ip in clients;
      var count := if known then clients[ip] else 0;
      if !known || count < limit {
        if !known {
          timers := timers + multiset{ip};
        }
        clients := clients[ip := (if ip in clients then clients[ip] else 0) + 1];
        ok := true;
      } else {
        ok := false;
      }
    }

    /** What a timer does when it fires. */
    method ResetCount(ip: string)
      requires ip in timers
      modifies this
      ensures Shared() == Next(limit, old(Shared()), Reset(ip))
    {
      clients := clients - {ip};
      timers := timers - multiset{ip};
    }
  }
}
