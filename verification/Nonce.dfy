/** Nonces and expiries of signed actions. The nonce is the server's key for
    rejecting replays, so it may never repeat whatever the clock does. */
module Nonce {
  import opened Int64

  const DEFAULT_WINDOW_MS := 60_000
  const MAX_INT64 := TWO63 - 1

  // The counter that NextNonce leaves behind, given the previous one and the clock.
  function Next(last: int, now: int): int {
    if now <= last then Wrap(last + 1) else now
  }

  // The counter after call i, calls taken in the order the lock admits them; clock[i]
  // is the time call i reads. A new signer starts from 0.
  function Counter(clock: seq<int>, i: nat): int
    requires i < |clock|
  {
    Next(if i == 0 then 0 else Counter(clock, i - 1), clock[i])
  }

  // The nonce of call i: the counter converted to uint64.
  function Issued(clock: seq<int>, i: nat): nat
    requires i < |clock|
  {
    Counter(clock, i) % TWO64
  }

  // uint64(x)
  lemma AsUint64(x: int)
    requires IsInt64(x)
    ensures x % TWO64 == if x < 0 then x + TWO64 else x
  {}

  ghost predicate IsClock(clock: seq<int>) {
    forall i | 0 <= i < |clock| :: IsInt64(clock[i])
  }

  class Signer {
    var lastNonce: int
    ghost var clock: seq<int>  // every time read so far

    ghost predicate Valid()
      reads this
    {
      && IsClock(clock)
      && lastNonce == if clock == [] then 0 else Counter(clock, |clock| - 1)
    }

    constructor ()
      ensures Valid() && clock == [] && lastNonce == 0
    {
      lastNonce := 0;
      clock := [];
    }

    method NextNonce(time: int) returns (nonce: nat)
      requires Valid() && IsInt64(time)
      modifies this
      ensures Valid() && clock == old(clock) + [time]
      ensures nonce == Issued(clock, |clock| - 1)
    {
      var now := time;
      if now <= lastNonce {
        now := Wrap(lastNonce + 1);
      }
      lastNonce := now;
      ghost var before := clock;
      clock := clock + [time];
      if before != [] {
        CounterPrefix(before, time, |before| - 1);
      }
      nonce := now % TWO64;
    }

    // How every Sign method begins: a nonce of zero asks for the next one, any other
    // is taken as it is.
    method Resolve(nonce: nat, expiresAfterMs: int, time: int) returns (used: nat, expiresAfter: int)
      requires Valid() && IsInt64(time) && nonce < TWO64 && IsInt64(expiresAfterMs)
      modifies this
      ensures Valid() && clock == (if nonce == 0 then old(clock) + [time] else old(clock))
      ensures used == if nonce == 0 then Issued(clock, |clock| - 1) else nonce
      ensures expiresAfter == ResolveExpiry(used, expiresAfterMs)
    {
      used := nonce;
      if used == 0 {
        used := NextNonce(time);
      }
      expiresAfter := ResolveExpiry(used, expiresAfterMs);
    }
  }

  lemma {:induction false} CounterPrefix(clock: seq<int>, time: int, i: nat)
    requires i < |clock|
    ensures Counter(clock + [time], i) == Counter(clock, i)
  {
    if i > 0 {
      CounterPrefix(clock, time, i - 1);
    }
  }

  // ---------------------------------------------------------------------
  // In range: while the latest time read plus the number of calls is below 2^63

  // The largest time read by call i or earlier, or 1 if none is positive.
  function Latest(clock: seq<int>, i: nat): (r: int)
    requires i < |clock|
    ensures r >= 1 && r >= clock[i]
  {
    var before := if i == 0 then 1 else Latest(clock, i - 1);
    if clock[i] > before then clock[i] else before
  }

  lemma {:induction false} CounterBounds(clock: seq<int>, i: nat)
    requires IsClock(clock) && i < |clock|
    requires Latest(clock, i) + i < TWO63
    ensures clock[i] <= Counter(clock, i) <= Latest(clock, i) + i
    ensures Counter(clock, i) >= 1
  {
    if i > 0 {
      CounterBounds(clock, i - 1);
    }
  }

  /** For any clock, one that stalls or runs backwards included: as long as the sum
      stays below 2^63, a nonce is at least the time read and at most the latest
      time read so far plus one for each earlier call. */
  lemma NonceBounds(clock: seq<int>, i: nat)
    requires IsClock(clock) && i < |clock|
    requires Latest(clock, i) + i < TWO63
    ensures clock[i] <= Issued(clock, i) <= Latest(clock, i) + i
    ensures Issued(clock, i) >= 1
  {
    CounterBounds(clock, i);
    AsUint64(Counter(clock, i));
    hide Counter, Latest;
  }

  // ---------------------------------------------------------------------
  // Over the whole range

  // The next nonce is not larger: the counter is negative, so that its uint64 is in
  // the upper half, and this call brings it back to zero or above.
  predicate Falls(last: int, now: int) {
    last < 0 && (now >= 0 || last == -1)
  }

  lemma NextRises(last: int, now: int)
    requires IsInt64(last) && IsInt64(now)
    ensures Next(last, now) % TWO64 > last % TWO64 <==> !Falls(last, now)
    ensures IsInt64(Next(last, now))
  {
    AsUint64(last);
    AsUint64(Next(last, now));
  }

  lemma {:induction false} CounterIsInt64(clock: seq<int>, i: nat)
    requires IsClock(clock) && i < |clock|
    ensures IsInt64(Counter(clock, i))
  {
    if i > 0 {
      CounterIsInt64(clock, i - 1);
      NextRises(Counter(clock, i - 1), clock[i]);
    } else {
      NextRises(0, clock[0]);
    }
  }

  ghost predicate Rising(clock: seq<int>) {
    forall i, j | 0 <= i < j < |clock| :: Issued(clock, i) < Issued(clock, j)
  }

  ghost predicate NeverFalls(clock: seq<int>) {
    forall k | 0 < k < |clock| :: !Falls(Counter(clock, k - 1), clock[k])
  }

  // One call: the nonce of call k is above that of the call before.
  lemma CallRises(clock: seq<int>, k: nat)
    requires IsClock(clock) && 0 < k < |clock|
    ensures Issued(clock, k - 1) < Issued(clock, k) <==> !Falls(Counter(clock, k - 1), clock[k])
  {
    CounterIsInt64(clock, k - 1);
    NextRises(Counter(clock, k - 1), clock[k]);
  }

  lemma {:induction false} RisesBetween(clock: seq<int>, i: nat, j: nat)
    requires IsClock(clock) && i < j < |clock| && NeverFalls(clock)
    ensures Issued(clock, i) < Issued(clock, j)
  {
    hide Issued, Falls;
    CallRises(clock, j);
    if i < j - 1 {
      RisesBetween(clock, i, j - 1);
    }
  }

  /** Over any run, for any clock, the nonces are strictly increasing if and only if
      no call finds the counter negative and either reads a time that is not, or
      steps past -1. */
  lemma NoncesRise(clock: seq<int>)
    requires IsClock(clock)
    ensures Rising(clock) <==> NeverFalls(clock)
  {
    hide Issued, Falls;
    if NeverFalls(clock) {
      forall i, j | 0 <= i < j < |clock| ensures Issued(clock, i) < Issued(clock, j) {
        RisesBetween(clock, i, j);
      }
    }
    if Rising(clock) {
      forall k | 0 < k < |clock| ensures !Falls(Counter(clock, k - 1), clock[k]) {
        CallRises(clock, k);
      }
    }
  }

  ghost predicate AfterEpoch(clock: seq<int>) {
    forall i | 0 <= i < |clock| :: clock[i] >= 0
  }

  // No call but the last two is given the largest int64 or more.
  ghost predicate SpentLate(clock: seq<int>) {
    forall k | 0 <= k < |clock| - 2 :: Issued(clock, k) < MAX_INT64
  }

  /** With a clock that is never negative the counter wraps once, to a nonce that
      still rises, and the call after that falls: the nonces are strictly increasing
      if and only if no call but the last two is given 2^63 - 1 or more. */
  lemma NoncesRiseAfterEpoch(clock: seq<int>)
    requires IsClock(clock) && AfterEpoch(clock)
    ensures Rising(clock) <==> SpentLate(clock)
  {
    hide Rising, Issued, Counter;
    NoncesRise(clock);
    if NeverFalls(clock) {
      forall k | 0 <= k < |clock| - 2 ensures Issued(clock, k) < MAX_INT64 {
        NotSpent(clock, k);
      }
    }
    if SpentLate(clock) {
      forall k | 0 < k < |clock| ensures !Falls(Counter(clock, k - 1), clock[k]) {
        SpentBeforeFall(clock, k);
      }
    }
  }

  lemma SpentFalls(clock: seq<int>, k: nat)
    requires IsClock(clock) && AfterEpoch(clock) && k + 2 < |clock| && Issued(clock, k) >= MAX_INT64
    ensures Falls(Counter(clock, k), clock[k + 1]) || Falls(Counter(clock, k + 1), clock[k + 2])
  {
    CounterIsInt64(clock, k);
    AsUint64(Counter(clock, k));
    hide Issued;
    assert clock[k + 1] >= 0 && clock[k + 2] >= 0;
    if Counter(clock, k) >= 0 {
      WrapsAtMax(clock[k + 1]);
    }
  }

  lemma NotSpent(clock: seq<int>, k: nat)
    requires IsClock(clock) && AfterEpoch(clock) && k + 2 < |clock| && NeverFalls(clock)
    ensures Issued(clock, k) < MAX_INT64
  {
    hide Issued, Counter, Falls;
    var (m, n) := (k + 1, k + 2);
    assert !Falls(Counter(clock, m - 1), clock[m]) && !Falls(Counter(clock, n - 1), clock[n]);
    if Issued(clock, k) >= MAX_INT64 {
      SpentFalls(clock, k);
    }
  }

  lemma WrapsAtMax(now: int)
    requires IsInt64(now)
    ensures Next(MAX_INT64, now) == -TWO63
  {}

  lemma SpentBeforeFall(clock: seq<int>, k: nat)
    requires IsClock(clock) && AfterEpoch(clock) && 0 < k < |clock| && SpentLate(clock)
    ensures Counter(clock, k - 1) >= 0
  {
    CounterIsInt64(clock, k - 1);
    assert clock[k - 1] >= 0;
    if k > 1 {
      var j := k - 2;
      CounterIsInt64(clock, j);
      assert Issued(clock, j) < MAX_INT64;
    }
  }

  /** The largest time, twice, then an earlier one: 2^63 - 1, 2^63, 0. */
  lemma NonceFalls()
    ensures var clock := [MAX_INT64, MAX_INT64, 0];
            && IsClock(clock) && !Rising(clock)
            && Issued(clock, 0) == MAX_INT64 && Issued(clock, 1) == TWO63 && Issued(clock, 2) == 0
  {
    var clock := [MAX_INT64, MAX_INT64, 0];
    assert Counter(clock, 0) == MAX_INT64;
    assert Counter(clock, 1) == -TWO63;
    assert Counter(clock, 2) == 0;
    assert !(Issued(clock, 1) < Issued(clock, 2));
  }

  // Nothing falls while the latest clock plus the number of calls is in range.
  lemma NoncesRiseInRange(clock: seq<int>)
    requires IsClock(clock)
    requires clock != [] ==> Latest(clock, |clock| - 1) + |clock| < TWO63
    ensures Rising(clock)
  {
    forall k | 0 < k < |clock| ensures !Falls(Counter(clock, k - 1), clock[k]) {
      LatestRises(clock, k - 1, |clock| - 1);
      CounterBounds(clock, k - 1);
    }
    NoncesRise(clock);
  }

  lemma {:induction false} LatestRises(clock: seq<int>, i: nat, j: nat)
    requires i <= j < |clock|
    ensures Latest(clock, i) <= Latest(clock, j)
  {
    if i < j {
      LatestRises(clock, i, j - 1);
    }
  }

  // ---------------------------------------------------------------------
  // Expiry

  function Window(expiresAfterMs: int): int {
    if expiresAfterMs <= 0 then DEFAULT_WINDOW_MS else expiresAfterMs
  }

  // resolveExpiry: the uint64 nonce is converted to int64 before the addition.
  function ResolveExpiry(nonce: int, expiresAfterMs: int): int {
    Wrap(Wrap(nonce) + Window(expiresAfterMs))
  }

  /** An action expires after its nonce, as the API demands, if and only if the
      window does not carry the sum past the int64 range. */
  lemma ExpiryIsAfterNonce(nonce: int, expiresAfterMs: int)
    requires 0 <= nonce < TWO64 && IsInt64(expiresAfterMs)
    ensures ResolveExpiry(nonce, expiresAfterMs) > nonce <==> nonce + Window(expiresAfterMs) < TWO63
    ensures nonce + Window(expiresAfterMs) < TWO63 ==>
              ResolveExpiry(nonce, expiresAfterMs) == nonce + Window(expiresAfterMs)
  {}

  /** The action is valid for as long as the caller asked, or a minute if the caller
      did not say: exactly while that fits an int64, and modulo 2^64 otherwise. */
  lemma ExpiryIsAsAsked(nonce: int, expiresAfterMs: int)
    requires 0 <= nonce < TWO64 && IsInt64(expiresAfterMs)
    ensures
      var valid := (ResolveExpiry(nonce, expiresAfterMs) - nonce) % TWO64;
      && (expiresAfterMs > 0 ==> valid == expiresAfterMs)
      && (expiresAfterMs <= 0 ==> valid == 60_000)
  {}
}
