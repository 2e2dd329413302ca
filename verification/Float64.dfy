/** Integers that pass through a Go float64: encoding/json reads a number into the
    nearest float, and prints a float as the shortest decimal that reads as it. */
module Float64 {
  import opened Wrappers
  import opened Arithmetic

  // ---------------------------------------------------------------------
  // Reading: 53 significant bits, ties to even

  const TWO52 := 0x10_0000_0000_0000
  const TWO53 := 0x20_0000_0000_0000

  // The distance between neighbouring floats at n.
  function Ulp(n: nat): (u: nat)
    ensures u > 0
  {
    if n < TWO53 then 1 else 2 * Ulp(n / 2)
  }

  function RoundEven(n: nat, u: nat): nat
    requires u > 0
  {
    var (q, r) := (n / u, n % u);
    if 2 * r < u || (2 * r == u && q % 2 == 0) then q * u else (q + 1) * u
  }

  // The float nearest to n.
  function Nearest(n: nat): nat {
    RoundEven(n, Ulp(n))
  }

  // ---------------------------------------------------------------------
  // Printing: strconv.AppendFloat(f, 'f', -1, 64) for a float that is an integer

  // The multiple of p that reads as the float f: of the two around f the nearer one
  // that does, the even one of two as near.
  function Candidate(f: nat, p: nat): Option<nat>
    requires p > 0
  {
    var lo := f / p * p;
    var hi := lo + p;
    if Nearest(lo) == f && Nearest(hi) == f then
      Some(if f - lo < hi - f || (f - lo == hi - f && f / p % 2 == 0) then lo else hi)
    else if Nearest(lo) == f then Some(lo)
    else if Nearest(hi) == f then Some(hi)
    else None
  }

  // The decimal with the fewest significant digits, zeros from the k-th place down.
  function Shortest(f: nat, k: nat): nat {
    match Candidate(f, Pow10(k))
    case Some(m) => m
    case None => if k == 0 then f else Shortest(f, k - 1)
  }

  const MAX_PLACE := 20  // no uint64 has more digits

  function Magnitude(n: int): nat {
    if n < 0 then -n else n
  }

  function WithSign(n: int, m: int): int {
    if n < 0 then -m else m
  }

  // json.Unmarshal into an `any`: the number as a float64.
  function Decoded(n: int): int {
    WithSign(n, Nearest(Magnitude(n)))
  }

  // json.Marshal of the float64 f.
  function Printed(f: int): int {
    WithSign(f, Shortest(Magnitude(f), MAX_PLACE))
  }

  function Resent(n: int): int {
    Printed(Decoded(n))
  }

  // The integer comes out of the two conversions as it went in.
  predicate Kept(n: int) {
    Resent(n) == n
  }

  // ---------------------------------------------------------------------

  // A float is off by at most a 2^52nd part of the integer.
  lemma {:induction false} UlpBound(n: nat)
    ensures n >= TWO53 ==> Ulp(n) * TWO52 <= n
  {
    if n >= TWO53 {
      if n / 2 >= TWO53 {
        UlpBound(n / 2);
      } else {
        assert Ulp(n / 2) == 1;
      }
    }
  }

  lemma RoundEvenClose(n: nat, u: nat)
    requires u > 0
    ensures RoundEven(n, u) <= n + u && n <= RoundEven(n, u) + u
  {
    DivMod(n, u);
    Distribute(n / u, 1, u);
  }

  predicate Close(f: int, n: int) {
    TWO52 * (f - n) <= n && TWO52 * (n - f) <= n
  }

  lemma NearestClose(n: nat)
    ensures n < TWO53 ==> Nearest(n) == n
    ensures Close(Nearest(n), n)
  {
    if n < TWO53 {
      assert Ulp(n) == 1;
    } else {
      UlpBound(n);
      RoundEvenClose(n, Ulp(n));
      hide RoundEven, Ulp;
    }
  }

  // ---------------------------------------------------------------------
  // The nearest float, and the shortest decimal

  function Scaled(m: nat, e: nat): nat {
    m * Pow2(e)
  }

  // A float that is an integer: 53 bits, and as many zeros as it takes.
  ghost predicate IsFloat(f: nat) {
    exists m: nat, e: nat :: m < TWO53 && f == Scaled(m, e)
  }

  function Distance(a: int, b: int): nat {
    Magnitude(a - b)
  }

  lemma {:induction false} UlpShape(n: nat) returns (e: nat)
    ensures Ulp(n) == Pow2(e) && n < TWO53 * Pow2(e) && (e > 0 ==> TWO52 * Pow2(e) <= n)
  {
    if n < TWO53 {
      e := 0;
      assert Pow2(0) == 1;
    } else {
      e := UlpShape(n / 2);
      e := e + 1;
      UlpBound(n);
    }
  }

  lemma RoundEvenNearest(n: nat, u: nat, k: nat)
    requires u > 0
    ensures Distance(RoundEven(n, u), n) <= Distance(k * u, n)
  {
    DivMod(n, u);
    Distribute(n / u, 1, u);
    Ordered(k, n / u, u);
    Ordered(n / u + 1, k, u);
  }

  lemma RoundEvenIsMultiple(n: nat, u: nat) returns (q: nat)
    requires u > 0 && n < TWO53 * u
    ensures RoundEven(n, u) == q * u && q <= TWO53
  {
    DivMod(n, u);
    Ordered(TWO53, n / u, u);
    q := if RoundEven(n, u) == n / u * u then n / u else n / u + 1;
  }

  lemma NearestIsFloat(n: nat)
    ensures IsFloat(Nearest(n))
  {
    var e := UlpShape(n);
    var q := RoundEvenIsMultiple(n, Ulp(n));
    hide RoundEven, Ulp;
    if q == TWO53 {
      Associate(TWO52, 2, Pow2(e));
      assert Nearest(n) == Scaled(TWO52, e + 1);
    } else {
      assert Nearest(n) == Scaled(q, e);
    }
  }

  /** Reading a number gives a float, and no float is nearer. */
  lemma NearestIsNearest(n: nat, g: nat)
    requires IsFloat(g)
    ensures IsFloat(Nearest(n)) && Distance(Nearest(n), n) <= Distance(g, n)
  {
    NearestIsFloat(n);
    var e := UlpShape(n);
    var m: nat, j: nat :| m < TWO53 && g == Scaled(m, j);
    hide RoundEven, Ulp, IsFloat;
    if j >= e {
      Pow2Adds(j - e, e);
      Associate(m, Pow2(j - e), Pow2(e));
      RoundEvenNearest(n, Ulp(n), m * Pow2(j - e));
    } else {
      RoundEvenNearest(n, Ulp(n), TWO52);
      SmallerScale(m, j, e);
    }
  }

  lemma SmallerScale(m: nat, j: nat, e: nat)
    requires m < TWO53 && j < e
    ensures m * Pow2(j) <= TWO52 * Pow2(e)
  {
    Pow2Adds(e - 1 - j, j);
    Ordered(m, TWO53, Pow2(j));
    Ordered(1, Pow2(e - 1 - j), Pow2(j));
    assert Pow2(e) == 2 * Pow2(e - 1);
  }

  /** Of two floats as near, the one with the even last bit. */
  lemma TiesToEven(n: nat) returns (q: nat)
    ensures Nearest(n) == q * Ulp(n)
    ensures 2 * Distance(Nearest(n), n) == Ulp(n) ==> q % 2 == 0
  {
    var u := Ulp(n);
    DivMod(n, u);
    Distribute(n / u, 1, u);
    q := if RoundEven(n, u) == n / u * u then n / u else n / u + 1;
    assert (n / u + 1) * u != n / u * u;
  }

  lemma FloatIsItself(f: nat)
    requires IsFloat(f)
    ensures Nearest(f) == f
  {
    NearestIsNearest(f, f);
  }

  lemma NearestIsMonotone(a: nat, b: nat)
    requires a <= b
    ensures Nearest(a) <= Nearest(b)
  {
    NearestIsFloat(a);
    NearestIsFloat(b);
    NearestIsNearest(a, Nearest(b));
    NearestIsNearest(b, Nearest(a));
    hide Nearest, IsFloat;
  }

  // A multiple of p that reads as f is found, or one between it and f is.
  lemma CandidateFound(f: nat, q: nat, p: nat)
    requires p > 0 && Nearest(f) == f && Nearest(Times(q, p)) == f
    ensures Candidate(f, p).Some?
  {
    DivMod(f, p);
    Distribute(f / p, 1, p);
    Ordered(q, f / p, p);
    Ordered(f / p + 1, q, p);
    if q <= f / p {
      NearestIsMonotone(q * p, f / p * p);
      NearestIsMonotone(f / p * p, f);
    } else {
      NearestIsMonotone(f / p * p + p, q * p);
      NearestIsMonotone(f, f / p * p + p);
    }
    hide Nearest;
  }

  /** Printing a float loses nothing: what is printed reads as the float. */
  lemma {:induction false} PrintedReadsBack(f: nat, k: nat)
    requires IsFloat(f)
    ensures Nearest(Shortest(f, k)) == f
  {
    FloatIsItself(f);
    hide Nearest, Candidate, IsFloat;
    if Candidate(f, Pow10(k)).Some? {
      CandidateIsMultiple(f, Pow10(k));
    } else if k > 0 {
      PrintedReadsBack(f, k - 1);
    }
  }

  /** And nothing shorter would do: whenever some multiple of a power of ten reads as
      the float, what is printed is a multiple of that power too. */
  lemma PrintedIsShortest(f: nat, q: nat, j: nat) returns (r: nat)
    requires IsFloat(f) && j <= MAX_PLACE && Nearest(Times(q, Pow10(j))) == f
    ensures Shortest(f, MAX_PLACE) == Times(r, Pow10(j))
  {
    FloatIsItself(f);
    CandidateFound(f, q, Pow10(j));
    r := StopsBy(f, j, MAX_PLACE);
  }

  lemma NearerCandidate(f: nat, q: nat, p: nat)
    requires p > 0 && Nearest(f) == f && Nearest(Times(q, p)) == f
    ensures Candidate(f, p).Some? && Distance(Candidate(f, p).value, f) <= Distance(Times(q, p), f)
  {
    CandidateFound(f, q, p);
    DivMod(f, p);
    Distribute(f / p, 1, p);
    Ordered(q, f / p, p);
    Ordered(f / p + 1, q, p);
    if q <= f / p {
      NearestIsMonotone(q * p, f / p * p);
      NearestIsMonotone(f / p * p, f);
    } else {
      NearestIsMonotone(f / p * p + p, q * p);
      NearestIsMonotone(f, f / p * p + p);
    }
    hide Nearest;
  }

  // No multiple of a higher power of ten reads as f.
  ghost predicate NoneShorter(f: nat, j: nat) {
    forall i: nat, r: nat | j < i <= MAX_PLACE :: Nearest(Times(r, Pow10(i))) != f
  }

  lemma CandidateMeans(f: nat, p: nat)
    requires p > 0
    ensures Candidate(f, p).Some? ==> exists r: nat :: Nearest(Times(r, p)) == f
  {
    hide Candidate, Nearest;
    if Candidate(f, p).Some? {
      CandidateIsMultiple(f, p);
    }
  }

  lemma {:induction false} ShortestFrom(f: nat, j: nat, k: nat)
    requires j <= k <= MAX_PLACE && NoneShorter(f, j) && Candidate(f, Pow10(j)).Some?
    ensures Shortest(f, k) == Candidate(f, Pow10(j)).value
  {
    hide Candidate, Nearest;
    if k > j {
      CandidateMeans(f, Pow10(k));
      ShortestFrom(f, j, k - 1);
    }
  }

  /** Of the shortest, the nearest to the float is printed. */
  lemma PrintedIsNearest(f: nat, q: nat, j: nat)
    requires IsFloat(f) && j <= MAX_PLACE && NoneShorter(f, j) && Nearest(Times(q, Pow10(j))) == f
    ensures Distance(Shortest(f, MAX_PLACE), f) <= Distance(Times(q, Pow10(j)), f)
  {
    FloatIsItself(f);
    NearerCandidate(f, q, Pow10(j));
    ShortestFrom(f, j, MAX_PLACE);
    hide Nearest, Candidate, Shortest, NoneShorter;
  }

  // ---------------------------------------------------------------------
  // Which integers are kept

  function Times(q: nat, p: nat): nat {
    q * p
  }

  lemma Around(f: nat, d: nat, p: nat)
    requires p > 0 && f < d * p + p && d * p < f + p
    ensures d == f / p || d == f / p + 1
  {
    var q := f / p;
    DivMod(f, p);
    Ordered(d, q, p);
    Ordered(q + 1, d, p);
    Distribute(q, 1, p);
  }

  lemma CandidateIsMultiple(f: nat, p: nat)
    requires p > 0 && Candidate(f, p).Some?
    ensures Candidate(f, p).value == Times(f / p, p) || Candidate(f, p).value == Times(f / p + 1, p)
    ensures Nearest(Candidate(f, p).value) == f
  {
    Distribute(f / p, 1, p);
    hide Nearest;
  }

  lemma CandidateExists(f: nat, d: nat, p: nat)
    requires p > 0 && f < d * p + p && d * p < f + p && Nearest(Times(d, p)) == f
    ensures Candidate(f, p).Some?
  {
    Around(f, d, p);
    Distribute(f / p, 1, p);
    hide Nearest;
  }

  // n is the only multiple of 10^k that reads as the same float.
  ghost predicate Alone(n: nat, k: nat) {
    forall q: nat :: Nearest(Times(q, Pow10(k))) == Nearest(n) ==> Times(q, Pow10(k)) == n
  }

  lemma HigherMultiple(q: nat, j: nat, k: nat)
    requires k <= j
    ensures Times(q, Pow10(j)) == Times(q * Pow10(j - k), Pow10(k))
  {
    Pow10Adds(j - k, k);
    Associate(q, Pow10(j - k), Pow10(k));
  }

  lemma {:induction false} AloneIsShortest(n: nat, d: nat, k: nat, j: nat)
    requires k <= j && n == Times(d, Pow10(k)) && Alone(n, k)
    requires var f := Nearest(n); f < n + Pow10(k) && n < f + Pow10(k)
    ensures Shortest(Nearest(n), j) == n
  {
    hide Nearest, Candidate;
    var f := Nearest(n);
    if j == k {
      CandidateExists(f, d, Pow10(k));
    }
    if Candidate(f, Pow10(j)).Some? {
      CandidateIsMultiple(f, Pow10(j));
      HigherMultiple(f / Pow10(j), j, k);
      HigherMultiple(f / Pow10(j) + 1, j, k);
    } else {
      AloneIsShortest(n, d, k, j - 1);
    }
  }

  lemma CloseMultiples(n: nat, m: nat, f: nat, p: nat)
    requires p > 0 && n < 1_000_000_000_000_000 * p
    requires Close(f, n) && Close(f, m)
    ensures m < n + p && n < m + p && f < n + p && n < f + p
  {}

  lemma SameMultiple(a: nat, b: nat, p: nat)
    requires p > 0 && a * p < b * p + p && b * p < a * p + p
    ensures a == b
  {
    Ordered(a, b, p);
    Ordered(b, a, p);
  }

  lemma FifteenDigitsAlone(d: nat, k: nat)
    requires d < 1_000_000_000_000_000
    ensures Alone(Times(d, Pow10(k)), k)
    ensures var (n, f) := (Times(d, Pow10(k)), Nearest(Times(d, Pow10(k))));
            f < n + Pow10(k) && n < f + Pow10(k)
  {
    hide Nearest, Close;
    var p := Pow10(k);
    var n := Times(d, p);
    Ordered(d, 1_000_000_000_000_000, p);
    NearestClose(n);
    forall q: nat | Nearest(Times(q, p)) == Nearest(n) ensures Times(q, p) == n {
      NearestClose(Times(q, p));
      CloseMultiples(n, Times(q, p), Nearest(n), p);
      SameMultiple(q, d, p);
    }
    CloseMultiples(n, n, Nearest(n), p);
  }

  lemma ShortestIsKept(n: int)
    requires Shortest(Nearest(Magnitude(n)), MAX_PLACE) == Magnitude(n)
    ensures Kept(n)
  {
    NearestClose(Magnitude(n));
    hide Shortest, Nearest;
  }

  /** An integer with at most fifteen significant digits is kept. */
  lemma FifteenDigitsAreKept(n: int, d: nat, k: nat)
    requires d < 1_000_000_000_000_000 && k <= MAX_PLACE && Magnitude(n) == d * Pow10(k)
    ensures Kept(n)
  {
    FifteenDigitsAlone(d, k);
    AloneIsShortest(Times(d, Pow10(k)), d, k, MAX_PLACE);
    hide Nearest, Shortest, Kept;
    ShortestIsKept(n);
  }

  // From 2^53 on a float is at least 2^53, and only 2^53 + 1 is rounded down to it.
  lemma NearestHigh(m: nat)
    ensures m >= TWO53 ==> Nearest(m) >= TWO53
    ensures m >= TWO53 + 2 ==> Nearest(m) > TWO53
  {
    if TWO53 <= m < 2 * TWO53 {
      assert Ulp(m / 2) == 1 && Ulp(m) == 2;
    } else {
      NearestClose(m);
    }
  }

  lemma SmallAlone(n: nat)
    requires n < TWO53
    ensures Alone(n, 0)
  {
    NearestClose(n);
    forall q: nat | Nearest(Times(q, Pow10(0))) == Nearest(n) ensures Times(q, Pow10(0)) == n {
      NearestHigh(q);
      NearestClose(q);
      hide Nearest;
      assert Times(q, Pow10(0)) == q;
    }
  }

  // No multiple of ten reads as 2^53.
  lemma TwoTo53HasNoTens(q: nat, j: nat)
    requires j > 0
    ensures Nearest(Times(q, Pow10(j))) != TWO53
  {
    HigherMultiple(q, j, 1);
    var m := Times(q, Pow10(j));
    assert Pow10(1) == 10 && m == q * Pow10(j - 1) * 10;
    NearestHigh(m);
    NearestClose(m);
    hide Nearest, Times;
  }

  lemma {:induction false} TwoTo53IsShortest(j: nat)
    ensures Shortest(TWO53, j) == TWO53
  {
    if j == 0 {
      assert Pow10(0) == 1;
      assert Nearest(TWO53) == TWO53 by {
        assert Ulp(TWO53 / 2) == 1 && Ulp(TWO53) == 2;
      }
      hide Nearest;
    } else {
      hide Nearest, Candidate;
      var p := Pow10(j);
      if Candidate(TWO53, p).Some? {
        CandidateIsMultiple(TWO53, p);
        TwoTo53HasNoTens(TWO53 / p, j);
        TwoTo53HasNoTens(TWO53 / p + 1, j);
      } else {
        TwoTo53IsShortest(j - 1);
      }
    }
  }

  /** Every integer up to 2^53 in magnitude is kept. */
  lemma SmallIntegersAreKept(n: int)
    requires -TWO53 <= n <= TWO53
    ensures Kept(n)
  {
    var m := Magnitude(n);
    if m == TWO53 {
      assert Nearest(m) == m by {
        assert Ulp(TWO53 / 2) == 1 && Ulp(TWO53) == 2;
      }
      TwoTo53IsShortest(MAX_PLACE);
    } else {
      SmallAlone(m);
      NearestClose(m);
      assert Times(m, Pow10(0)) == m;
      AloneIsShortest(m, m, 0, MAX_PLACE);
    }
    hide Shortest, Nearest, Kept;
    ShortestIsKept(n);
  }

  // ---------------------------------------------------------------------
  // An integer that is a float and is not kept

  lemma {:induction false} UlpIs(n: nat, e: nat)
    requires TWO52 * Pow2(e) <= n < TWO53 * Pow2(e) && e > 0
    ensures Ulp(n) == Pow2(e)
  {
    if e > 1 {
      UlpIs(n / 2, e - 1);
    } else {
      assert Ulp(n / 2) == 1;
    }
  }

  // Once multiples of 10^k are reached the search is over.
  lemma {:induction false} StopsBy(f: nat, k: nat, j: nat) returns (q: nat)
    requires k <= j && Candidate(f, Pow10(k)).Some?
    ensures Shortest(f, j) == Times(q, Pow10(k))
  {
    hide Candidate;
    var p := Pow10(j);
    if Candidate(f, p).Some? {
      CandidateIsMultiple(f, p);
      HigherMultiple(f / p, j, k);
      HigherMultiple(f / p + 1, j, k);
      q := if Candidate(f, p).value == Times(f / p, p) then f / p * Pow10(j - k) else (f / p + 1) * Pow10(j - k);
    } else {
      q := StopsBy(f, k, j - 1);
    }
  }

  const TWO60 := 0x1000_0000_0000_0000

  lemma AroundTwoTo60()
    ensures Nearest(TWO60) == TWO60 && Nearest(1_152_921_504_606_847_000) == TWO60
  {
    assert Pow2(4) == 16 && Pow2(8) == 256;
    UlpIs(TWO60, 8);
    UlpIs(1_152_921_504_606_847_000, 8);
    hide Ulp;
  }

  lemma CandidateAt60()
    ensures Candidate(TWO60, Pow10(3)).Some?
  {
    AroundTwoTo60();
    hide Nearest;
    assert Pow10(3) == 1000;
    assert TWO60 / 1000 * 1000 + 1000 == 1_152_921_504_606_847_000;
  }

  /** 2^60 is a float, but prints as 1152921504606847000 or a rounder number still. */
  lemma TwoTo60IsNotKept()
    ensures Decoded(TWO60) == TWO60 && !Kept(TWO60)
  {
    AroundTwoTo60();
    CandidateAt60();
    hide Nearest, Candidate;
    var q := StopsBy(TWO60, 3, MAX_PLACE);
    assert Pow10(3) == 1000;
    assert TWO60 % 1000 == 976;
  }
}
