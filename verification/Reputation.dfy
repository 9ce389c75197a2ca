/** Paymaster reputation: hourly decay of the two counters, and the status they give. */
module Reputation {
  import opened Wrappers
  import opened Text

  const EMA_HOURS := 24
  const MIN_INCLUSION_RATE_DENOMINATOR := 10
  const THROTTLING_SLACK := 10
  const BAN_SLACK := 50
  const HOUR := 3600

  /** Operations seen and included, and the second of the last write. */
  datatype Counter = Counter(seen: nat, included: nat, updated: int)

  datatype Status = Okay | Throttled | Banned

  // ---------------------------------------------------------------------------------------------
  // Decay
  // ---------------------------------------------------------------------------------------------

  function Decay(x: nat): nat {
    x - x / EMA_HOURS
  }

  function DecayBy(x: nat, n: nat): nat {
    if n == 0 then x else DecayBy(Decay(x), n - 1)
  }

  function HoursSince(updated: int, now: int): nat {
    if now < updated then 0 else (now - updated) / HOUR
  }

  function Read(c: Counter, now: int): Counter {
    var h := HoursSince(c.updated, now);
    Counter(DecayBy(c.seen, h), DecayBy(c.included, h), now)
  }

  lemma {:induction false} SmallIsFixed(x: nat, n: nat)
    requires x < EMA_HOURS
    ensures DecayBy(x, n) == x
  {
    if n > 0 {
      SmallIsFixed(x, n - 1);
    }
  }

  /** The decay loop, which stops early once neither counter can move. */
  method ApplyExpWeights(c: Counter, now: int) returns (r: Counter)
    ensures r == Read(c, now)
  {
    var opsSeen: nat, opsIncluded: nat := c.seen, c.included;
    var i: nat := HoursSince(c.updated, now);
    while i > 0
      invariant DecayBy(opsSeen, i) == DecayBy(c.seen, HoursSince(c.updated, now))
      invariant DecayBy(opsIncluded, i) == DecayBy(c.included, HoursSince(c.updated, now))
    {
      if opsSeen < 24 && opsIncluded < 24 {
        SmallIsFixed(opsSeen, i);
        SmallIsFixed(opsIncluded, i);
        break;
      }
      opsSeen := opsSeen - opsSeen / EMA_HOURS;
      opsIncluded := opsIncluded - opsIncluded / EMA_HOURS;
      i := i - 1;
    }
    return Counter(opsSeen, opsIncluded, now);
  }

  /** Reading a record applies one decay step of a 24th, rounded down, for each whole hour since it was written, and none
      if the clock went back. */
  lemma ReadIs(c: Counter, now: int)
    ensures now < c.updated + 3600 ==> Read(c, now) == Counter(c.seen, c.included, now)
    ensures now >= c.updated + 3600 ==>
              Read(c, now) == Read(Counter(c.seen - c.seen / 24, c.included - c.included / 24, c.updated + 3600), now)
  {
    if now >= c.updated + 3600 {
      assert HoursSince(c.updated, now) == HoursSince(c.updated + 3600, now) + 1;
    }
  }

  /** Decay keeps the order of counters, never raises one, and never takes one from 23 or more to below 23. */
  lemma {:induction false} DecayLaws(x: nat, y: nat, n: nat)
    requires x <= y
    ensures DecayBy(x, n) <= DecayBy(y, n)
    ensures DecayBy(x, n) <= x
    ensures x >= 23 ==> DecayBy(x, n) >= 23
  {
    if n > 0 {
      DecayLaws(Decay(x), Decay(y), n - 1);
    }
  }

  lemma {:induction false} DecayAdds(x: nat, m: nat, n: nat)
    ensures DecayBy(DecayBy(x, m), n) == DecayBy(x, m + n)
  {
    if m > 0 {
      DecayAdds(Decay(x), m - 1, n);
    }
  }

  lemma {:induction false} EnoughDecay(x: nat, n: nat)
    requires n >= x
    ensures DecayBy(x, n) < 24
  {
    if x < EMA_HOURS {
      SmallIsFixed(x, n);
    } else {
      EnoughDecay(Decay(x), n - 1);
    }
  }

  // ---------------------------------------------------------------------------------------------
  // Status
  // ---------------------------------------------------------------------------------------------

  function StatusOf(c: Counter): Status {
    var minExpected := c.seen / MIN_INCLUSION_RATE_DENOMINATOR;
    if c.seen == 0 then Okay
    else if minExpected <= c.included + THROTTLING_SLACK then Okay
    else if minExpected <= c.included + BAN_SLACK then Throttled
    else Banned
  }

  /** A paymaster is throttled from 110 operations above ten times those included on, and banned from 510 on. A ban ends
      once enough hours have been applied. */
  lemma BanIsLifted(c: Counter, n: nat)
    requires n >= c.seen
    ensures StatusOf(Counter(DecayBy(c.seen, n), DecayBy(c.included, n), c.updated)) == Okay
    ensures StatusOf(c) == Banned <==> c.seen >= 10 * c.included + 510
    ensures StatusOf(c) == Throttled <==> 10 * c.included + 110 <= c.seen < 10 * c.included + 510
  {
    EnoughDecay(c.seen, n);
  }

  // ---------------------------------------------------------------------------------------------
  // Runs of reads and increments
  // ---------------------------------------------------------------------------------------------

  /** What touches a paymaster's record, and the second it happens. */
  datatype Event =
    | Check(at: int)
    | Seen(at: int)
    | Included(at: int, count: nat)

  function Apply(c: Counter, e: Event): Counter {
    var r := Read(c, e.at);
    match e
    case Check(_) => r
    case Seen(_) => r.(seen := r.seen + 1)
    case Included(_, k) => r.(included := r.included + k)
  }

  function Run(c: Counter, es: seq<Event>): Counter
    decreases |es|
  {
    if es == [] then c else Run(Apply(c, es[0]), es[1..])
  }

  /** Decay steps that the events apply between them. */
  function StepsApplied(updated: int, es: seq<Event>): nat
    decreases |es|
  {
    if es == [] then 0 else HoursSince(updated, es[0].at) + StepsApplied(es[0].at, es[1..])
  }

  predicate InOrder(updated: int, es: seq<Event>)
    decreases |es|
  {
    es != [] ==> updated <= es[0].at && InOrder(es[0].at, es[1..])
  }

  function LastAt(updated: int, es: seq<Event>): int {
    if es == [] then updated else es[|es| - 1].at
  }

  /** The seconds past the last whole hour that each touch throws away. */
  function Leftover(updated: int, es: seq<Event>): nat
    decreases |es|
  {
    if es == [] then 0
    else (if es[0].at < updated then 0 else (es[0].at - updated) % 3600) + Leftover(es[0].at, es[1..])
  }

  lemma {:induction false} TimeAddsUp(updated: int, es: seq<Event>)
    requires InOrder(updated, es)
    ensures LastAt(updated, es) - updated == HOUR * StepsApplied(updated, es) + Leftover(updated, es)
    decreases |es|
  {
    if es != [] {
      var at := es[0].at;
      TimeAddsUp(at, es[1..]);
      assert LastAt(at, es[1..]) == LastAt(updated, es);
      assert at - updated == HOUR * HoursSince(updated, at) + (at - updated) % HOUR;
    }
  }

  /** However a record is touched, the decay steps applied are the whole hours passed less the whole hours that the
      leftover seconds make up. So no more steps are applied than hours have passed, and one for each hour exactly when
      less than an hour is left over in all. */
  lemma NoMoreThanHours(updated: int, es: seq<Event>)
    requires InOrder(updated, es)
    ensures updated <= LastAt(updated, es)
    ensures var passed := LastAt(updated, es) - updated;
      && StepsApplied(updated, es) == passed / 3600 - Leftover(updated, es) / 3600
      && (StepsApplied(updated, es) == passed / 3600 <==> Leftover(updated, es) < 3600)
  {
    hide StepsApplied, Leftover, LastAt;
    TimeAddsUp(updated, es);
  }

  predicate WithinTheHour(updated: int, es: seq<Event>)
    decreases |es|
  {
    es != [] ==> updated <= es[0].at < updated + 3600 && WithinTheHour(es[0].at, es[1..])
  }

  /** Each touch restarts the clock, so a record decays at all if and only if it is once left alone for an hour. */
  lemma {:induction false} NoStepIff(updated: int, es: seq<Event>)
    requires InOrder(updated, es)
    ensures StepsApplied(updated, es) == 0 <==> WithinTheHour(updated, es)
    decreases |es|
  {
    if es != [] {
      NoStepIff(es[0].at, es[1..]);
    }
  }

  function SeenCount(es: seq<Event>): nat {
    if es == [] then 0 else (if es[0].Seen? then 1 else 0) + SeenCount(es[1..])
  }

  function IncludedCount(es: seq<Event>): nat {
    if es == [] then 0 else (if es[0].Included? then es[0].count else 0) + IncludedCount(es[1..])
  }

  /** A record touched at least once an hour is a plain count of all that ever happened. */
  lemma {:induction false} BusyNeverDecays(c: Counter, es: seq<Event>)
    requires WithinTheHour(c.updated, es)
    ensures Run(c, es) == Counter(c.seen + SeenCount(es), c.included + IncludedCount(es), LastAt(c.updated, es))
    decreases |es|
  {
    if es != [] {
      var d := Apply(c, es[0]);
      assert HoursSince(c.updated, es[0].at) == 0;
      BusyNeverDecays(d, es[1..]);
      assert LastAt(d.updated, es[1..]) == LastAt(c.updated, es);
    }
  }

  /** No read finds both an hour passed and a counter large enough to lose something. */
  predicate NothingLost(c: Counter, es: seq<Event>)
    decreases |es|
  {
    es != [] ==>
      (es[0].at < c.updated + 3600 || c.seen < 24) && NothingLost(Apply(c, es[0]), es[1..])
  }

  lemma DecayLosesIff(x: nat, n: nat)
    ensures DecayBy(x, n) <= x
    ensures DecayBy(x, n) == x <==> n == 0 || x < 24
  {
    DecayLaws(x, x, n);
    if x < EMA_HOURS {
      SmallIsFixed(x, n);
    } else if n > 0 {
      DecayLaws(Decay(x), Decay(x), n - 1);
    }
  }

  /** The operations seen are counted in full if and only if no read decays a counter of 24 or more: what is lost once
      is never made up. */
  lemma {:induction false} SeenInFullIff(c: Counter, es: seq<Event>)
    requires InOrder(c.updated, es)
    ensures Run(c, es).seen <= c.seen + SeenCount(es)
    ensures Run(c, es).seen == c.seen + SeenCount(es) <==> NothingLost(c, es)
    decreases |es|
  {
    if es != [] {
      hide DecayBy, HoursSince;
      SeenInFullIff(Apply(c, es[0]), es[1..]);
      DecayLosesIff(c.seen, HoursSince(c.updated, es[0].at));
    }
  }

  /** After any run each counter lies between what full decay and no decay would leave. */
  lemma {:induction false} RunBounds(c: Counter, es: seq<Event>)
    requires InOrder(c.updated, es)
    ensures DecayBy(c.seen, StepsApplied(c.updated, es)) <= Run(c, es).seen <= c.seen + SeenCount(es)
    ensures DecayBy(c.included, StepsApplied(c.updated, es)) <= Run(c, es).included <= c.included + IncludedCount(es)
    decreases |es|
  {
    if es != [] {
      var h := HoursSince(c.updated, es[0].at);
      var d := Apply(c, es[0]);
      var rest := StepsApplied(es[0].at, es[1..]);
      RunBounds(d, es[1..]);
      DecayAdds(c.seen, h, rest);
      DecayAdds(c.included, h, rest);
      DecayLaws(DecayBy(c.seen, h), d.seen, rest);
      DecayLaws(DecayBy(c.included, h), d.included, rest);
      DecayLaws(c.seen, c.seen, h);
      DecayLaws(c.included, c.included, h);
    }
  }

  // ---------------------------------------------------------------------------------------------
  // The stored text
  // ---------------------------------------------------------------------------------------------

  function Store(seen: nat, included: nat, updated: nat): string {
    Join([Digits(seen, 10), Digits(included, 10), Digits(updated, 10)])
  }

  function Parse(text: string): Option<Counter> {
    var parts := Split(text);
    if |parts| < 3 then None else
    var seen :- ParseDigits(parts[0], 10);
    var included :- ParseDigits(parts[1], 10);
    var updated :- ParseDigits(parts[2], 10);
    Some(Counter(seen, included, updated))
  }

  /** The record is the operations seen, those included and the second, in decimal, with colons between. */
  lemma StoreText(seen: nat, included: nat, updated: nat)
    ensures Store(seen, included, updated) == Digits(seen, 10) + ":" + Digits(included, 10) + ":" + Digits(updated, 10)
  {
    hide Digits;
    var a, b, c := Digits(seen, 10), Digits(included, 10), Digits(updated, 10);
    assert Join([c]) == c;
    assert Join([b, c]) == b + ":" + c by { assert [b, c][1..] == [c]; }
    assert [a, b, c][1..] == [b, c];
  }

  /** A stored record reads back as the counters that were written. */
  lemma ParseUndoesStore(seen: nat, included: nat, updated: nat)
    ensures Parse(Store(seen, included, updated)) == Some(Counter(seen, included, updated))
  {
    hide Digits, Split, Join, ParseDigits;
    DigitsReadBack(seen, 10);
    DigitsReadBack(included, 10);
    DigitsReadBack(updated, 10);
    DigitsArePlain(seen, 10);
    DigitsArePlain(included, 10);
    DigitsArePlain(updated, 10);
    SplitUndoesJoin([Digits(seen, 10), Digits(included, 10), Digits(updated, 10)]);
  }
}
