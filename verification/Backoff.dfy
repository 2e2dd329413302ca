/** The reconnect delay of both websocket clients: which base each sleep of the
    run loop has, and how far jitter moves the sleep from it. */
module Backoff {
  import opened Int64
  import opened Arithmetic

  datatype Client = Info | Trade

  const DEFAULT_INITIAL := 500_000_000  // nanoseconds, wstrade.DefaultReconnectInitial

  function NextBackoff(c: Client, cur: int, max: int): int {
    var cur := if c.Trade? && cur <= 0 then DEFAULT_INITIAL else cur;
    var next := Wrap(cur * 2);
    if next > max then max else next
  }

  // The base after n consecutive sleeps that started from initial.
  function Doubled(c: Client, initial: int, max: int, n: nat): int {
    if n == 0 then initial else NextBackoff(c, Doubled(c, initial, max, n - 1), max)
  }

  // One iteration of the run loop per element: did the dial succeed? A connection
  // that then fails authentication or drops sleeps like any other.
  type Dials = seq<bool>

  // Sleeps between iteration i and the last successful dial, or the start.
  function Since(dials: Dials, i: nat): nat
    requires i < |dials|
  {
    if dials[i] || i == 0 then 0 else 1 + Since(dials, i - 1)
  }

  // The backoff variable of runLoop; bases[i] is what iteration i passes to
  // sleepWithJitter.
  method RunLoop(c: Client, initial: int, max: int, dials: Dials) returns (bases: seq<int>)
    ensures |bases| == |dials|
    ensures forall i | 0 <= i < |dials| :: bases[i] == Doubled(c, initial, max, Since(dials, i))
  {
    hide NextBackoff;
    bases := [];
    var backoff := initial;
    for i := 0 to |dials|
      invariant |bases| == i
      invariant forall j | 0 <= j < i :: bases[j] == Doubled(c, initial, max, Since(dials, j))
      invariant backoff == if i == 0 then initial else Doubled(c, initial, max, 1 + Since(dials, i - 1))
    {
      if !dials[i] {
        bases := bases + [backoff];
        backoff := NextBackoff(c, backoff, max);
        continue;
      }
      backoff := initial;
      bases := bases + [backoff];
      backoff := NextBackoff(c, backoff, max);
    }
  }

  /** The count starts again at every successful dial, and only there: the sleeps
      counted are those after the last one, or after the start. */
  lemma {:induction false} SinceLastDial(dials: Dials, i: nat)
    requires i < |dials|
    ensures
      var last := i - Since(dials, i);
      && 0 <= last <= i && (last == 0 || dials[last])
      && forall j | last < j <= i :: !dials[j]
  {
    if !dials[i] && i > 0 {
      SinceLastDial(dials, i - 1);
    }
  }

  // ---------------------------------------------------------------------
  // The closed form

  function Capped(initial: int, max: int, n: nat): int {
    if n == 0 then initial
    else if initial * Pow2(n) > max then max
    else initial * Pow2(n)
  }

  lemma NextIsDouble(c: Client, d: int, max: int)
    requires 0 < d < TWO63 && 0 < max < TWO63
    ensures d < TWO62 ==> NextBackoff(c, d, max) == if 2 * d > max then max else 2 * d
    ensures d >= TWO62 ==> NextBackoff(c, d, max) < 0
  {}

  lemma CappedDoubles(initial: int, max: int, n: nat)
    requires initial > 0 && max > 0
    ensures Capped(initial, max, n) > 0
    ensures Capped(initial, max, n + 1) ==
            if 2 * Capped(initial, max, n) > max then max else 2 * Capped(initial, max, n)
  {
    var p := Pow2(n);
    assert initial * p > 0;
    assert initial * Pow2(n + 1) == 2 * (initial * p);
  }

  lemma {:induction false} DoubledIsCapped(c: Client, initial: int, max: int, n: nat)
    requires 0 < initial < TWO62 && 0 < max < TWO62
    ensures Doubled(c, initial, max, n) == Capped(initial, max, n)
    ensures 0 < Capped(initial, max, n) < TWO62
  {
    hide NextBackoff, Capped;
    if n == 0 {
      assert Capped(initial, max, 0) == initial by { CappedAtZero(initial, max); }
    } else {
      DoubledIsCapped(c, initial, max, n - 1);
      CappedDoubles(initial, max, n - 1);
      CappedDoubles(initial, max, n);
      NextIsDouble(c, Doubled(c, initial, max, n - 1), max);
    }
  }

  lemma CappedAtZero(initial: int, max: int)
    ensures Capped(initial, max, 0) == initial
  {}

  // With a larger setting the doubling reaches 2^62, and then overflows.
  lemma {:induction false} Overflows(c: Client, initial: int, max: int, n: nat) returns (m: nat)
    requires 0 < max < TWO63 && 0 < Doubled(c, initial, max, n) < TWO63
    requires Doubled(c, initial, max, n) >= TWO62 || max >= TWO62
    ensures Doubled(c, initial, max, m) < 0
    decreases TWO63 - Doubled(c, initial, max, n)
  {
    hide NextBackoff;
    NextIsDouble(c, Doubled(c, initial, max, n), max);
    m := n + 1;
    if Doubled(c, initial, max, n) < TWO62 {
      m := Overflows(c, initial, max, n + 1);
    }
  }

  /** Closed form: the first sleep after a successful dial or the start has base
      initial, even if that is above max, and the n-th one after it has base
      min(initial * 2^n, max), for every n, exactly when neither setting reaches
      2^62 nanoseconds, where the doubling overflows. */
  lemma ClosedForm(c: Client, initial: int, max: int)
    requires 0 < initial < TWO63 && 0 < max < TWO63
    ensures (forall n: nat :: Doubled(c, initial, max, n) == Capped(initial, max, n))
            <==> initial < TWO62 && max < TWO62
  {
    if initial < TWO62 && max < TWO62 {
      forall n: nat ensures Doubled(c, initial, max, n) == Capped(initial, max, n) {
        DoubledIsCapped(c, initial, max, n);
      }
    } else {
      var m := Overflows(c, initial, max, 0);
      CappedDoubles(initial, max, m);
    }
  }

  // ---------------------------------------------------------------------
  // Jitter

  datatype Sleep = Immediate | Wait(dur: int) | Panics

  // The argument of rand.Int63n, which panics unless it is positive.
  function JitterRange(c: Client, d: int): int {
    if c.Info? then d / 2 else d / 4
  }

  // sleepWithJitter, where the random draw was r.
  function SleepFor(c: Client, initial: int, d: int, r: int): Sleep
    requires initial > 0
  {
    var d := if c.Trade? && d <= 0 then initial else d;
    if d <= 0 then Immediate
    else if JitterRange(c, d) <= 0 then Panics
    else if c.Info? then Wait(Wrap(d - d / 4 + r))
    else Wait(Wrap(d + r))
  }

  // The smallest base whose jitter range is not empty.
  function SmallestBase(c: Client): int {
    if c.Info? then 2 else 4
  }

  predicate WithinJitter(c: Client, d: int, dur: int) {
    (if c.Info? then 3 * d else 4 * d) <= 4 * dur < 5 * d
  }

  // With a positive base: when the sleep panics, and when it is within bounds.
  lemma SleepIsWithinJitter(c: Client, initial: int, d: int, r: int)
    requires initial > 0 && 0 < d < TWO63
    requires d >= SmallestBase(c) ==> 0 <= r < JitterRange(c, d)
    ensures SleepFor(c, initial, d, r).Panics? <==> d < SmallestBase(c)
    ensures d >= SmallestBase(c) ==>
              var s := SleepFor(c, initial, d, r);
              s.Wait? && (WithinJitter(c, d, s.dur) <==> (if c.Info? then d - d / 4 else d) + r < TWO63)
  {}

  // What the sleep is at least, and what it stays below.
  function Shortest(c: Client, d: int): int {
    if c.Info? then d - d / 4 else d
  }

  function Longest(c: Client, d: int): int {
    if c.Info? then d - d / 4 + d / 2 else d + d / 4
  }

  /** The jitter is spread over the whole range: each duration in it has its draw, and
      a draw gives no other. */
  lemma EverySleepIsPossible(c: Client, initial: int, d: int, dur: int) returns (r: int)
    requires initial > 0 && SmallestBase(c) <= d < TWO62
    requires Shortest(c, d) <= dur < Longest(c, d)
    ensures 0 <= r < JitterRange(c, d) && SleepFor(c, initial, d, r) == Wait(dur)
    ensures forall other | 0 <= other < JitterRange(c, d) && other != r :: SleepFor(c, initial, d, other) != Wait(dur)
  {
    r := dur - Shortest(c, d);
  }

  /** A base that is not positive, as after an overflow: wsinfo does not sleep at all,
      wstrade sleeps for its initial base and then starts again from one second. */
  lemma NonPositiveBase(initial: int, max: int, d: int, r: int)
    requires initial > 0 && max > 0 && d <= 0
    ensures SleepFor(Info, initial, d, r) == Immediate
    ensures SleepFor(Trade, initial, d, r) == SleepFor(Trade, initial, initial, r)
    ensures NextBackoff(Trade, d, max) == if max < 1_000_000_000 then max else 1_000_000_000
    ensures -TWO62 <= d ==> NextBackoff(Info, d, max) == 2 * d
  {}

  // When initial is at most max the two cases are one.
  lemma CappedFromStart(initial: int, max: int, n: nat)
    requires 0 < initial <= max
    ensures Capped(initial, max, n) == if initial * Pow2(n) > max then max else initial * Pow2(n)
  {}

  /** Every sleep of a run: its base follows the closed form since the last
      successful dial, and it lasts [3/4, 5/4) of that base in wsinfo and [1, 5/4)
      in wstrade, integer division included. */
  lemma RunSleepsAreBounded(c: Client, initial: int, max: int, dials: Dials, i: nat, r: int)
    requires 0 < initial < TWO62 && 0 < max < TWO62 && i < |dials|
    requires Capped(initial, max, Since(dials, i)) >= SmallestBase(c)
    requires 0 <= r < JitterRange(c, Capped(initial, max, Since(dials, i)))
    ensures
      var base := Doubled(c, initial, max, Since(dials, i));
      && base == Capped(initial, max, Since(dials, i))
      && SleepFor(c, initial, base, r).Wait?
      && WithinJitter(c, base, SleepFor(c, initial, base, r).dur)
  {
    DoubledIsCapped(c, initial, max, Since(dials, i));
    SleepIsWithinJitter(c, initial, Capped(initial, max, Since(dials, i)), r);
  }
}
