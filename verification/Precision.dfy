/** Flooring a price or a size to a market's increment. The arithmetic is that of
    shopspring/decimal v1.4.0, whose division rounds to 16 places, so the floor is
    taken of a rounded quotient. */
module Precision {
  import opened Wrappers
  import opened Text
  import opened Arithmetic

  // coef * 10^exp
  datatype Dec = Dec(coef: int, exp: int)

  datatype Error = BadValue | BadIncrement | IncrementNotPositive | ExponentOverflow

  const MIN_INT32 := -0x8000_0000
  const MAX_INT32 := 0x7fff_ffff

  predicate IsInt32(n: int) {
    MIN_INT32 <= n <= MAX_INT32
  }

  const PLACES := 16  // decimal.DivisionPrecision
  const P := 10_000_000_000_000_000

  // ---------------------------------------------------------------------
  // The library operations

  // The coefficient and the point of a text without exponent part.
  function ParsePlain(s: string, exp: int): Option<Dec> {
    var i := Cut(s, '.');
    var fraction := if i == |s| then "" else s[i + 1..];
    var coef := ParseSigned(s[..i] + fraction);
    if '.' in fraction || coef.None? || !IsInt32(exp - |fraction|) then None
    else Some(Dec(coef.value, exp - |fraction|))
  }

  function Min(a: int, b: int): int {
    if a < b then a else b
  }

  // decimal.NewFromString; None is an error.
  function NewFromString(s: string): (r: Option<Dec>)
    ensures r.Some? ==> IsInt32(r.value.exp)
  {
    var i := Min(Cut(s, 'E'), Cut(s, 'e'));
    if i == |s| then ParsePlain(s, 0)
    else
      var exp := ParseSigned(s[i + 1..]);
      if exp.None? || !IsInt32(exp.value) then None else ParsePlain(s[..i], exp.value)
  }

  // big.Int.Quo: division truncated towards zero.
  function Quo(a: int, b: int): int
    requires b > 0
  {
    if a >= 0 then a / b else -((-a) / b)
  }

  // The quotient a / b rounded half away from zero, as DivRound decides it.
  function HalfAway(a: int, b: int): int
    requires b > 0
  {
    var q := Quo(a, b);
    var r := a - q * b;
    if 2 * (if r < 0 then -r else r) < b then q else if a < 0 then q - 1 else q + 1
  }

  // The two integers QuoRem divides.
  function Dividend(v: Dec, inc: Dec): int {
    var e := v.exp - inc.exp + PLACES;
    if e < 0 then v.coef else v.coef * Pow10(e)
  }

  function Divisor(v: Dec, inc: Dec): (d: nat)
    requires inc.coef > 0
    ensures d > 0
  {
    var e := v.exp - inc.exp + PLACES;
    if e < 0 then
      PositiveProduct(inc.coef, Pow10(-e));
      inc.coef * Pow10(-e)
    else inc.coef
  }

  function Div(v: Dec, inc: Dec): Dec
    requires inc.coef > 0
  {
    Dec(HalfAway(Dividend(v, inc), Divisor(v, inc)), -PLACES)
  }

  function Floor(d: Dec): Dec {
    if d.exp >= 0 then d else Dec(d.coef / Pow10(-d.exp), 0)
  }

  function Mul(a: Dec, b: Dec): Dec {
    Dec(a.coef * b.coef, a.exp + b.exp)
  }

  function Rescale(d: Dec, exp: int): Dec {
    if exp > d.exp then Dec(Quo(d.coef, Pow10(exp - d.exp)), exp)
    else Dec(d.coef * Pow10(d.exp - exp), exp)
  }

  function Round(d: Dec, places: int): Dec {
    if d.exp == -places then d
    else
      var t := Rescale(d, -places - 1);
      var c := if t.coef < 0 then t.coef - 5 else t.coef + 5;
      Dec(if c / 10 < 0 && c % 10 != 0 then c / 10 + 1 else c / 10, -places)
  }

  function Zeros(n: nat): (z: string)
    ensures |z| == n && AllDigits(z)
  {
    if n == 0 then "" else ['0'] + Zeros(n - 1)
  }

  function Abs(n: int): nat {
    if n < 0 then -n else n
  }

  // Decimal.string without trimming zeros.
  function ToString(d: Dec): string {
    if d.exp >= 0 then SignedDecimal(Rescale(d, 0).coef)
    else
      var s := Decimal(Abs(d.coef));
      var n := -d.exp;
      var number :=
        if |s| > n then s[..|s| - n] + "." + s[|s| - n..]
        else "0." + Zeros(n - |s|) + s;
      if d.coef < 0 then "-" + number else number
  }

  function StringFixed(d: Dec, places: int): string {
    ToString(Round(d, places))
  }

  // ---------------------------------------------------------------------

  // The multiple of the increment the formatter settles on.
  function Multiple(v: Dec, inc: Dec): int
    requires inc.coef > 0
  {
    Floor(Div(v, inc)).coef
  }

  function FormatToIncrement(value: string, increment: string): Result<string, Error> {
    var v := NewFromString(value);
    var inc := NewFromString(increment);
    if v.None? then Failure(BadValue)
    else if inc.None? then Failure(BadIncrement)
    else if inc.value.coef <= 0 then Failure(IncrementNotPositive)
    else if !IsInt32(v.value.exp - inc.value.exp + PLACES) then Failure(ExponentOverflow)
    else
      var places := if inc.value.exp < 0 then -inc.value.exp else 0;
      Success(StringFixed(Mul(Floor(Div(v.value, inc.value)), inc.value), places))
  }

  // ---------------------------------------------------------------------
  // Arithmetic

  lemma Pow10Sixteen()
    ensures Pow10(PLACES) == P
  {
    assert Pow10(4) == 10000;
    Pow10Adds(4, 4);
    Pow10Adds(8, 8);
  }

  // v and the increment on a common scale: v / inc == Num / Den.
  function Num(v: Dec, inc: Dec): int {
    if v.exp > inc.exp then v.coef * Pow10(v.exp - inc.exp) else v.coef
  }

  function Den(v: Dec, inc: Dec): int {
    if inc.exp > v.exp then inc.coef * Pow10(inc.exp - v.exp) else inc.coef
  }

  // How far the library's operands fall short of that scale.
  function Slack(v: Dec, inc: Dec): nat {
    var d := inc.exp - v.exp;
    if d <= 0 then 1 else if d <= PLACES then Pow10(d) else P
  }

  lemma Scales(v: Dec, inc: Dec)
    requires inc.coef > 0
    ensures Slack(v, inc) > 0 && Den(v, inc) > 0
    ensures Dividend(v, inc) * Slack(v, inc) == Num(v, inc) * P
    ensures Divisor(v, inc) * Slack(v, inc) == Den(v, inc)
  {
    var d := inc.exp - v.exp;
    Pow10Sixteen();
    if d <= 0 {
      Pow10Adds(-d, PLACES);
      Associate(v.coef, Pow10(-d), P);
    } else if d <= PLACES {
      Pow10Adds(PLACES - d, d);
      Associate(v.coef, Pow10(PLACES - d), Pow10(d));
      PositiveProduct(inc.coef, Pow10(d));
    } else {
      Pow10Adds(d - PLACES, PLACES);
      Associate(inc.coef, Pow10(d - PLACES), P);
      PositiveProduct(inc.coef, Pow10(d));
    }
  }

  // h is a / b rounded half away from zero.
  lemma HalfAwayBounds(a: int, b: int)
    requires b > 0
    ensures var h := HalfAway(a, b);
            if a >= 0 then 2 * (h * b) - b <= 2 * a < 2 * (h * b) + b
            else 2 * (h * b) - b < 2 * a <= 2 * (h * b) + b
  {
    var q := Quo(a, b);
    var h := HalfAway(a, b);
    QuoRemainder(a, b);
    Distribute(q, h - q, b);
    hide Quo;
  }

  lemma QuoRemainder(a: int, b: int)
    requires b > 0
    ensures var r := a - Quo(a, b) * b; if a >= 0 then 0 <= r < b else -b < r <= 0
  {
    if a < 0 {
      assert (-a) / b * b == -(Quo(a, b) * b);
    }
  }

  // The rounded quotient reaches m exactly when a is within half a divisor of m * b.
  predicate Within(a: int, b: int, m: int) {
    if a >= 0 then 2 * (m * b - a) <= b else 2 * (m * b - a) < b
  }

  lemma HalfAwayReaches(a: int, b: int, m: int)
    requires b > 0
    ensures HalfAway(a, b) >= m <==> Within(a, b, m)
  {
    var h := HalfAway(a, b);
    HalfAwayBounds(a, b);
    Ordered(m, h, b);
    Ordered(h, m, b);
    hide HalfAway;
  }

  // Is n/d within half a unit in the 16th place of m, so that rounding reaches m?
  predicate Reaches(n: int, d: int, m: int) {
    if n >= 0 then 2 * P * (m * d - n) <= d else 2 * P * (m * d - n) < d
  }

  lemma WithinScales(a: int, b: int, m: int, s: int)
    requires b > 0 && s > 0
    ensures b * s > 0
    ensures Within(a, b, m) <==> Within(a * s, b * s, m)
  {
    PositiveProduct(b, s);
    var x := 2 * (m * b - a);
    assert x * s == 2 * (m * (b * s) - a * s) by {
      Associate(m, b, s);
      Distribute(m * b - a, a, s);
    }
    Ordered(x, b, s);
    Ordered(b, x, s);
    Ordered(a, 0, s);
  }

  lemma WithinReaches(n: int, d: int, m: int)
    ensures Within(n * P, d, m * P) <==> Reaches(n, d, m)
  {
    assert m * P * d == P * (m * d) by {
      Associate(P, m, d);
    }
  }

  // The chosen multiple is at least m exactly when v / inc is within half a unit
  // in the 16th place of m.
  lemma MultipleReaches(v: Dec, inc: Dec, m: int)
    requires inc.coef > 0
    ensures Multiple(v, inc) >= m <==> Reaches(Num(v, inc), Den(v, inc), m)
  {
    var (a, b, s) := (Dividend(v, inc), Divisor(v, inc), Slack(v, inc));
    Scales(v, inc);
    Pow10Sixteen();
    var q := HalfAway(a, b);
    assert Multiple(v, inc) == q / P;
    assert q / P >= m <==> q >= m * P;
    HalfAwayReaches(a, b, m * P);
    WithinScales(a, b, m * P, s);
    WithinReaches(Num(v, inc), Den(v, inc), m);
  }

  // ---------------------------------------------------------------------
  // Which multiple

  // The largest multiple not above v.
  function FloorMultiple(v: Dec, inc: Dec): int
    requires inc.coef > 0
  {
    Scales(v, inc);
    Num(v, inc) / Den(v, inc)
  }

  /** The formatter picks the floor or one more, and the floor exactly when the rest
      of v is further below the next multiple than half a unit in the 16th place
      of the quotient (or just as far, for negative v). */
  lemma FlooringIsExact(v: Dec, inc: Dec)
    requires inc.coef > 0
    ensures Den(v, inc) > 0
    ensures FloorMultiple(v, inc) <= Multiple(v, inc) <= FloorMultiple(v, inc) + 1
    ensures
      var (n, d) := (Num(v, inc), Den(v, inc));
      var gap := d - n % d;
      Multiple(v, inc) == FloorMultiple(v, inc)
      <==> if n >= 0 then 2 * P * gap > d else 2 * P * gap >= d
  {
    Scales(v, inc);
    var (n, d) := (Num(v, inc), Den(v, inc));
    var t := FloorMultiple(v, inc);
    DivMod(n, d);
    Distribute(t, 1, d);
    Distribute(t, 2, d);
    MultipleReaches(v, inc, t);
    MultipleReaches(v, inc, t + 1);
    MultipleReaches(v, inc, t + 2);
    hide Multiple, Num, Den;
  }

  /** The floor is exact for every value while the increment, on the scale of the
      value, is below 2 * 10^16. */
  lemma FlooringIsExactBelowBound(v: Dec, inc: Dec)
    requires inc.coef > 0 && Den(v, inc) < 2 * P
    ensures Multiple(v, inc) == FloorMultiple(v, inc)
  {
    FlooringIsExact(v, inc);
    Scales(v, inc);
    DivMod(Num(v, inc), Den(v, inc));
  }

  /** The bound is tight: for any larger increment the value one unit of its last
      place short of it is moved up to the increment itself. */
  lemma FlooringUpAboveBound(inc: Dec, exp: int)
    requires exp <= inc.exp && inc.coef > 0
    requires Den(Dec(0, exp), inc) >= 2 * P
    ensures
      var v := Dec(Den(Dec(0, exp), inc) - 1, exp);
      FloorMultiple(v, inc) == 0 && Multiple(v, inc) == 1
  {
    var d := Den(Dec(0, exp), inc);
    var v := Dec(d - 1, exp);
    assert Den(v, inc) == d && Num(v, inc) == d - 1;
    assert (d - 1) / d == 0 && (d - 1) % d == d - 1;
    FlooringIsExact(v, inc);
    hide Multiple, Den;
  }

  /** In general v lies above the chosen multiple by less than one increment, and
      below it by at most a 2 * 10^16th part of one. */
  lemma FlooringBound(v: Dec, inc: Dec)
    requires inc.coef > 0
    ensures
      var (n, d, k) := (Num(v, inc), Den(v, inc), Multiple(v, inc));
      n - k * d < d && -d <= 2 * P * (n - k * d)
  {
    Scales(v, inc);
    var (n, d, k) := (Num(v, inc), Den(v, inc), Multiple(v, inc));
    MultipleReaches(v, inc, k);
    MultipleReaches(v, inc, k + 1);
    Distribute(k, 1, d);
  }

  // ---------------------------------------------------------------------
  // Monotonicity

  // The coefficient of d in units of 10^exp.
  function At(d: Dec, exp: int): int
    requires exp <= d.exp
  {
    d.coef * Pow10(d.exp - exp)
  }

  predicate LessEq(v: Dec, w: Dec) {
    At(v, Min(v.exp, w.exp)) <= At(w, Min(v.exp, w.exp))
  }

  lemma AtLower(d: Dec, exp: int, lower: int)
    requires lower <= exp <= d.exp
    ensures At(d, lower) == At(d, exp) * Pow10(exp - lower)
  {
    Pow10Adds(d.exp - exp, exp - lower);
    Associate(d.coef, Pow10(d.exp - exp), Pow10(exp - lower));
  }

  // Num over Den is v over inc in any common unit.
  lemma NumOverDen(v: Dec, inc: Dec, exp: int)
    requires inc.coef > 0 && exp <= v.exp && exp <= inc.exp
    ensures At(inc, exp) > 0
    ensures Num(v, inc) * At(inc, exp) == Den(v, inc) * At(v, exp)
  {
    PositiveProduct(inc.coef, Pow10(inc.exp - exp));
    if v.exp > inc.exp {
      AtLower(v, inc.exp, exp);
      Swap(At(v, inc.exp), inc.coef, Pow10(inc.exp - exp));
    } else {
      AtLower(inc, v.exp, exp);
      assert Den(v, inc) == At(inc, v.exp);
      Swap(v.coef, At(inc, v.exp), Pow10(v.exp - exp));
    }
  }

  lemma Swap(a: int, b: int, c: int)
    ensures a * (b * c) == b * (a * c)
  {
    Associate(a, b, c);
    Associate(b, a, c);
  }

  lemma CrossRatio(v: Dec, w: Dec, inc: Dec)
    requires inc.coef > 0 && LessEq(v, w)
    ensures Num(v, inc) * Den(w, inc) <= Num(w, inc) * Den(v, inc)
  {
    var m := Min(v.exp, w.exp);
    var u := Min(m, inc.exp);
    AtLower(v, m, u);
    AtLower(w, m, u);
    Ordered(At(v, m), At(w, m), Pow10(m - u));
    NumOverDen(v, inc, u);
    NumOverDen(w, inc, u);
    Scales(v, inc);
    Scales(w, inc);
    CrossMultiply(Num(v, inc), Den(v, inc), At(v, u), Num(w, inc), Den(w, inc), At(w, u), At(inc, u));
  }

  lemma CrossMultiply(n1: int, d1: int, x1: int, n2: int, d2: int, x2: int, i: int)
    requires d1 > 0 && d2 > 0 && i > 0 && x1 <= x2
    requires n1 * i == d1 * x1 && n2 * i == d2 * x2
    ensures n1 * d2 <= n2 * d1
  {
    PositiveProduct(d1, d2);
    Ordered(x1, x2, d1 * d2);
    assert n1 * d2 * i == x1 * (d1 * d2) by {
      assert n1 * d2 * i == (n1 * i) * d2;
      assert d1 * x1 * d2 == x1 * (d1 * d2);
    }
    assert n2 * d1 * i == x2 * (d1 * d2) by {
      assert n2 * d1 * i == (n2 * i) * d1;
      assert d2 * x2 * d1 == x2 * (d1 * d2);
    }
    Ordered(n2 * d1, n1 * d2, i);
  }

  lemma ReachesUp(n1: int, d1: int, n2: int, d2: int, m: int)
    requires d1 > 0 && d2 > 0 && n1 * d2 <= n2 * d1 && Reaches(n1, d1, m)
    ensures Reaches(n2, d2, m)
  {
    var (x1, x2) := (2 * P * (m * d1 - n1), 2 * P * (m * d2 - n2));
    assert x1 * d2 == 2 * P * (m * (d1 * d2) - n1 * d2) by {
      Distribute(m * d1 - n1, n1, d2);
      Associate(m, d1, d2);
      Associate(2 * P, m * d1 - n1, d2);
    }
    assert x2 * d1 == 2 * P * (m * (d1 * d2) - n2 * d1) by {
      Distribute(m * d2 - n2, n2, d1);
      Associate(m, d2, d1);
      Associate(2 * P, m * d2 - n2, d1);
    }
    assert x2 * d1 <= x1 * d2;
    Ordered(x1, d1, d2);
    Ordered(d1, x1, d2);
    Ordered(x2, d2, d1);
    Ordered(d2, x2, d1);
    if n2 < 0 {
      Ordered(n2, 0, d1);
      Ordered(n1, 0, d2);
    }
  }

  /** A larger value never gets a smaller multiple, whatever the two exponents. */
  lemma MultipleIsMonotone(v: Dec, w: Dec, inc: Dec)
    requires inc.coef > 0 && LessEq(v, w)
    ensures Multiple(v, inc) <= Multiple(w, inc)
  {
    var k := Multiple(v, inc);
    CrossRatio(v, w, inc);
    Scales(v, inc);
    Scales(w, inc);
    MultipleReaches(v, inc, k);
    ReachesUp(Num(v, inc), Den(v, inc), Num(w, inc), Den(w, inc), k);
    MultipleReaches(w, inc, k);
  }

  // ---------------------------------------------------------------------
  // The printed text

  // The decimal the text stands for: the multiple times the increment, with the
  // places of the increment.
  function Output(v: Dec, inc: Dec): Dec
    requires inc.coef > 0
  {
    var c := Multiple(v, inc) * inc.coef;
    if inc.exp < 0 then Dec(c, inc.exp) else Dec(c * Pow10(inc.exp), 0)
  }

  // StringFixed has nothing to round.
  lemma RoundIsExact(d: Dec)
    ensures d.exp < 0 ==> Round(d, -d.exp) == d
    ensures d.exp >= 0 ==> Round(d, 0) == Dec(d.coef * Pow10(d.exp), 0)
  {
    if d.exp > 0 {
      Pow10Adds(d.exp, 1);
      Associate(d.coef, Pow10(d.exp), Pow10(1));
      assert Pow10(1) == 10;
      assert Rescale(d, -1).coef == 10 * (d.coef * Pow10(d.exp));
    }
  }

  lemma {:induction false} ZerosAddNothing(n: nat, s: string)
    requires AllDigits(s)
    ensures AllDigits(Zeros(n) + s) && DigitsValue(Zeros(n) + s) == DigitsValue(s)
  {
    if s == "" {
      assert Zeros(n) + s == Zeros(n);
      ZerosAreZero(n);
    } else {
      ZerosAddNothing(n, s[..|s| - 1]);
      assert (Zeros(n) + s)[..n + |s| - 1] == Zeros(n) + s[..|s| - 1];
    }
  }

  lemma {:induction false} ZerosAreZero(n: nat)
    ensures DigitsValue(Zeros(n)) == 0
  {
    if n > 0 {
      ZerosSnoc(n - 1);
      ZerosAreZero(n - 1);
      assert Zeros(n)[..n - 1] == Zeros(n - 1);
    }
  }

  lemma {:induction false} ZerosSnoc(n: nat)
    ensures Zeros(n + 1) == Zeros(n) + ['0']
  {
    if n > 0 {
      ZerosSnoc(n - 1);
    }
  }

  lemma DigitsLack(s: string)
    requires AllDigits(s)
    ensures '.' !in s && 'E' !in s && 'e' !in s
  {}

  lemma NoExponentPart(s: string)
    requires 'E' !in s && 'e' !in s
    ensures NewFromString(s) == ParsePlain(s, 0)
  {
    CutUnique(s, 'E', |s|);
    CutUnique(s, 'e', |s|);
  }

  function Signed(sign: string, n: int): int {
    if sign == "-" then -n else n
  }

  lemma SignParses(sign: string, digits: string)
    requires (sign == "" || sign == "-") && digits != "" && AllDigits(digits)
    ensures ParseSigned(sign + digits) == Some(Signed(sign, DigitsValue(digits)))
  {
    if sign == "" {
      assert sign + digits == digits && IsDigit(digits[0]);
    } else {
      assert (sign + digits)[1..] == digits;
    }
  }

  lemma WholeParses(n: int)
    ensures NewFromString(SignedDecimal(n)) == Some(Dec(n, 0))
  {
    var s := SignedDecimal(n);
    DigitsLack(Decimal(Abs(n)));
    NoExponentPart(s);
    CutUnique(s, '.', |s|);
    SignedDecimalParses(n);
    assert s[..|s|] + "" == s;
  }

  lemma PointParses(head: string, fraction: string, coef: int)
    requires '.' !in head && '.' !in fraction && IsInt32(-|fraction|)
    requires ParseSigned(head + fraction) == Some(coef)
    ensures ParsePlain(head + "." + fraction, 0) == Some(Dec(coef, -|fraction|))
  {
    var s := head + "." + fraction;
    assert s[..|head|] == head && s[|head|] == '.' && s[|head| + 1..] == fraction;
    CutUnique(s, '.', |head|);
    hide Cut, ParseSigned;
  }

  lemma ConcatLacks(a: string, b: string, c: char)
    ensures c !in a && c !in b <==> c !in a + b
  {
    assert forall i | 0 <= i < |a| :: (a + b)[i] == a[i];
    assert forall i | 0 <= i < |b| :: (a + b)[|a| + i] == b[i];
  }

  lemma NumberLacks(sign: string, whole: string, fraction: string)
    requires (sign == "" || sign == "-") && AllDigits(whole + fraction)
    ensures '.' !in sign + whole && '.' !in fraction
    ensures 'E' !in sign + whole + "." + fraction && 'e' !in sign + whole + "." + fraction
  {
    DigitsLack(whole + fraction);
    hide AllDigits;
    forall c | c in {'.', 'E', 'e'} ensures c !in sign + whole && c !in fraction {
      ConcatLacks(whole, fraction, c);
      ConcatLacks(sign, whole, c);
    }
    forall c | c in {'E', 'e'} ensures c !in sign + whole + "." + fraction {
      ConcatLacks(sign + whole, ".", c);
      ConcatLacks(sign + whole + ".", fraction, c);
    }
  }

  lemma NumberParses(head: string, fraction: string, coef: int)
    requires '.' !in head && '.' !in fraction && IsInt32(-|fraction|)
    requires 'E' !in head + "." + fraction && 'e' !in head + "." + fraction
    requires ParseSigned(head + fraction) == Some(coef)
    ensures NewFromString(head + "." + fraction) == Some(Dec(coef, -|fraction|))
  {
    PointParses(head, fraction, coef);
    NoExponentPart(head + "." + fraction);
  }

  lemma PartsParse(sign: string, whole: string, fraction: string)
    requires (sign == "" || sign == "-") && whole != ""
    requires AllDigits(whole + fraction) && IsInt32(-|fraction|)
    ensures NewFromString(sign + whole + "." + fraction)
            == Some(Dec(Signed(sign, DigitsValue(whole + fraction)), -|fraction|))
  {
    hide *;
    var digits := whole + fraction;
    SignParses(sign, digits);
    assert (sign + whole) + fraction == sign + digits;
    NumberLacks(sign, whole, fraction);
    NumberParses(sign + whole, fraction, Signed(sign, DigitsValue(digits)));
  }

  function PlainSign(d: Dec): string {
    if d.coef < 0 then "-" else ""
  }

  lemma DecimalSplits(n: nat, k: nat)
    requires k < |Decimal(n)|
    ensures var (s, m) := (Decimal(n), |Decimal(n)| - k);
            s[..m] + s[m..] == s && (k > 0 ==> s[0] != '0')
  {
    DecimalHead(n);
  }

  // The digits of a number with places: before and after the point.
  function Whole(s: string, n: nat): string {
    if |s| > n then s[..|s| - n] else "0"
  }

  function Fraction(s: string, n: nat): string {
    if |s| > n then s[|s| - n..] else Zeros(n - |s|) + s
  }

  lemma ToStringParts(d: Dec)
    requires d.exp < 0
    ensures var s := Decimal(Abs(d.coef));
            ToString(d) == PlainSign(d) + Whole(s, -d.exp) + "." + Fraction(s, -d.exp)
  {
    hide Decimal;
    var s := Decimal(Abs(d.coef));
    var n := -d.exp;
    assert PlainSign(d) + Whole(s, n) + "." + Fraction(s, n) == PlainSign(d) + (Whole(s, n) + "." + Fraction(s, n));
    assert |s| <= n ==> Whole(s, n) + "." + Fraction(s, n) == "0." + Zeros(n - |s|) + s;
  }

  lemma PartsDigits(m: nat, n: nat)
    requires n > 0
    ensures var (whole, fraction) := (Whole(Decimal(m), n), Fraction(Decimal(m), n));
            && whole != "" && |fraction| == n && (whole == "0" || whole[0] != '0')
            && AllDigits(whole + fraction) && DigitsValue(whole + fraction) == m
  {
    var s := Decimal(m);
    DecimalParses(m);
    if |s| > n {
      DecimalSplits(m, n);
      assert Whole(s, n) + Fraction(s, n) == s;
    } else {
      ZerosAddNothing(n - |s| + 1, s);
      ZerosCons(n - |s|);
      hide Decimal, DigitsValue, Zeros;
      assert "0" + Fraction(s, n) == Zeros(n - |s| + 1) + s;
    }
  }

  // A printed number with a fraction, taken apart.
  lemma PrintedParts(d: Dec) returns (sign: string, whole: string, fraction: string)
    requires d.exp < 0
    ensures ToString(d) == sign + whole + "." + fraction
    ensures sign == PlainSign(d) && whole != "" && |fraction| == -d.exp
    ensures AllDigits(whole + fraction) && DigitsValue(whole + fraction) == Abs(d.coef)
    ensures whole == "0" || whole[0] != '0'
  {
    ToStringParts(d);
    PartsDigits(Abs(d.coef), -d.exp);
    hide ToString, Decimal, DigitsValue, Whole, Fraction;
    var s := Decimal(Abs(d.coef));
    sign, whole, fraction := PlainSign(d), Whole(s, -d.exp), Fraction(s, -d.exp);
  }

  lemma ZerosCons(n: nat)
    ensures Zeros(n + 1) == "0" + Zeros(n)
  {}

  // Printing and parsing are inverse on decimals without trailing scale.
  lemma PrintParses(d: Dec)
    requires d.exp <= 0 && IsInt32(d.exp)
    ensures NewFromString(ToString(d)) == Some(d)
  {
    hide *;
    if d.exp == 0 {
      WholeToString(d);
      WholeParses(d.coef);
    } else {
      var sign, whole, fraction := PrintedParts(d);
      SignGivesBack(d);
      assert -|fraction| == d.exp;
      PartsParse(sign, whole, fraction);
    }
  }

  lemma WholeToString(d: Dec)
    requires d.exp == 0
    ensures ToString(d) == SignedDecimal(d.coef)
  {
    assert Rescale(d, 0).coef == d.coef;
  }

  lemma SignGivesBack(d: Dec)
    ensures PlainSign(d) == "" || PlainSign(d) == "-"
    ensures Signed(PlainSign(d), Abs(d.coef)) == d.coef
  {}

  // ---------------------------------------------------------------------
  // Which texts are numbers

  // head [. tail] [mark exponent]; the mark is "e" or "E".
  datatype Numeral = Numeral(head: string, tail: Option<string>, mark: string, exponent: string)

  function TailOf(n: Numeral): string {
    if n.tail.Some? then n.tail.value else ""
  }

  function Mantissa(n: Numeral): string {
    n.head + (if n.tail.Some? then "." + n.tail.value else "")
  }

  function TextOf(n: Numeral): string {
    Mantissa(n) + (n.mark + n.exponent)
  }

  predicate WellFormed(n: Numeral) {
    && '.' !in n.head && '.' !in TailOf(n) && 'e' !in Mantissa(n) && 'E' !in Mantissa(n)
    && (n.mark == "e" || n.mark == "E" || (n.mark == "" && n.exponent == ""))
  }

  // A signed run of digits with the point after its head.
  function ParseAround(head: string, tail: string, exp: int): Option<Dec> {
    var coef := ParseSigned(head + tail);
    if coef.None? || !IsInt32(exp - |tail|) then None else Some(Dec(coef.value, exp - |tail|))
  }

  // The number a numeral stands for, if its digits and its exponent are in order: the
  // point is taken out, and moves the exponent down by the length of the tail.
  function Value(n: Numeral): Option<Dec> {
    var exp := if n.mark == "" then Some(0) else ParseSigned(n.exponent);
    if exp.None? || !IsInt32(exp.value) then None else ParseAround(n.head, TailOf(n), exp.value)
  }

  lemma PlainWhole(head: string, exp: int)
    requires '.' !in head
    ensures ParsePlain(head, exp) == ParseAround(head, "", exp)
  {
    assert head[..|head|] == head;
    CutUnique(head, '.', |head|);
    hide Cut, ParseSigned;
  }

  lemma PlainPoint(head: string, tail: string, exp: int)
    requires '.' !in head && '.' !in tail
    ensures ParsePlain(head + ("." + tail), exp) == ParseAround(head, tail, exp)
  {
    var s := head + ("." + tail);
    assert s[..|head|] == head && s[|head|] == '.' && s[|head| + 1..] == tail;
    CutUnique(s, '.', |head|);
    hide Cut, ParseSigned;
  }

  lemma PlainReads(n: Numeral, exp: int)
    requires WellFormed(n)
    ensures ParsePlain(Mantissa(n), exp) == ParseAround(n.head, TailOf(n), exp)
  {
    hide ParsePlain, ParseAround;
    if n.tail.Some? {
      PlainPoint(n.head, n.tail.value, exp);
    } else {
      assert n.head + "" == n.head;
      PlainWhole(n.head, exp);
    }
  }

  lemma CutBeyond(m: string, rest: string, c: char)
    requires c !in m
    ensures Cut(m + rest, c) >= |m|
    ensures rest != "" && rest[0] == c ==> Cut(m + rest, c) == |m|
  {
    var s := m + rest;
    assert s[..|m|] == m;
    var i := Cut(s, c);
    hide Cut;
    assert forall k | 0 <= k < |m| :: s[k] == m[k] && m[k] in m;
    if rest != "" && rest[0] == c {
      assert s[|m|] == c && |m| < |s|;
      CutUnique(s, c, |m|);
    }
  }

  lemma MarkFound(m: string, mark: string, exponent: string)
    requires 'e' !in m && 'E' !in m && (mark == "e" || mark == "E" || (mark == "" && exponent == ""))
    ensures Min(Cut(m + (mark + exponent), 'E'), Cut(m + (mark + exponent), 'e')) == |m|
  {
    var rest := mark + exponent;
    CutBeyond(m, rest, 'e');
    CutBeyond(m, rest, 'E');
    hide Cut;
    assert mark != "" ==> rest[0] == mark[0];
  }

  lemma MarkReads(m: string, mark: string, exponent: string)
    requires 'e' !in m && 'E' !in m && (mark == "e" || mark == "E" || (mark == "" && exponent == ""))
    ensures NewFromString(m + (mark + exponent)) ==
            if mark == "" then ParsePlain(m, 0)
            else
              var exp := ParseSigned(exponent);
              if exp.None? || !IsInt32(exp.value) then None else ParsePlain(m, exp.value)
  {
    var s := m + (mark + exponent);
    MarkFound(m, mark, exponent);
    hide Cut, ParseSigned, ParsePlain;
    assert s[..|m|] == m;
    if mark == "" {
      assert s == m;
    } else {
      assert s[|m| + 1..] == exponent;
    }
  }

  /** A numeral is read as the number it stands for, and as nothing else. */
  lemma NumeralReads(n: Numeral)
    requires WellFormed(n)
    ensures NewFromString(TextOf(n)) == Value(n)
  {
    MarkReads(Mantissa(n), n.mark, n.exponent);
    PlainReads(n, 0);
    var exp := ParseSigned(n.exponent);
    if exp.Some? {
      PlainReads(n, exp.value);
    }
    hide NewFromString, ParsePlain, ParseSigned, Mantissa;
  }

  // A text cut at its first mark and, before that, at its first point.
  function NumeralOf(s: string): Numeral {
    var i := Min(Cut(s, 'E'), Cut(s, 'e'));
    CutNumeral(s, i, Cut(s[..i], '.'))
  }

  lemma SplitAt(s: string, i: nat)
    requires i <= |s|
    ensures s == s[..i] + ((if i < |s| then [s[i]] else "") + (if i < |s| then s[i + 1..] else ""))
  {}

  lemma LacksBefore(s: string, i: nat, j: nat, c: char)
    requires i <= j <= |s| && c !in s[..j]
    ensures c !in s[..i]
  {
    assert forall k | 0 <= k < i :: s[..i][k] == s[..j][k];
  }

  lemma BeforeMark(s: string)
    ensures var i := Min(Cut(s, 'E'), Cut(s, 'e'));
            'e' !in s[..i] && 'E' !in s[..i] && (i < |s| ==> s[i] == 'E' || s[i] == 'e')
  {
    var (a, b) := (Cut(s, 'E'), Cut(s, 'e'));
    assert (a < |s| ==> s[a] == 'E') && (b < |s| ==> s[b] == 'e');
    assert 'E' !in s[..a] && 'e' !in s[..b];
    hide Cut;
    LacksBefore(s, Min(a, b), a, 'E');
    LacksBefore(s, Min(a, b), b, 'e');
  }

  // Cut at mark i and, before that, at point j.
  function CutNumeral(s: string, i: nat, j: nat): Numeral
    requires j <= i <= |s|
  {
    var m := s[..i];
    Numeral(m[..j], if j < i then Some(m[j + 1..]) else None,
            if i < |s| then [s[i]] else "", if i < |s| then s[i + 1..] else "")
  }

  lemma CutNumeralText(s: string, i: nat, j: nat)
    requires j <= i <= |s| && (j < i ==> s[j] == '.')
    ensures Mantissa(CutNumeral(s, i, j)) == s[..i] && TextOf(CutNumeral(s, i, j)) == s
  {
    var m := s[..i];
    SplitAt(s, i);
    SplitAt(m, j);
    if j == i {
      assert m[..j] + "" == m;
    }
  }

  /** Every text that is accepted is a numeral. */
  lemma OnlyNumeralsAccepted(s: string)
    requires NewFromString(s).Some?
    ensures WellFormed(NumeralOf(s)) && TextOf(NumeralOf(s)) == s
  {
    var i := Min(Cut(s, 'E'), Cut(s, 'e'));
    var m := s[..i];
    var j := Cut(m, '.');
    assert '.' !in m[..j] && (j < i ==> m[j] == '.');
    OnePoint(s);
    BeforeMark(s);
    hide Cut, ParseSigned, ParsePlain, NewFromString, Mantissa, TextOf;
    CutNumeralText(s, i, j);
    assert NumeralOf(s) == CutNumeral(s, i, j);
  }

  lemma OnePoint(s: string)
    requires NewFromString(s).Some?
    ensures '.' !in TailOf(NumeralOf(s))
  {
    hide Cut, ParseSigned;
  }

  // ---------------------------------------------------------------------
  // What the printed text looks like

  lemma TenTimes(x: int, p: int, v: int, last: int)
    ensures 10 * (x * p + v) + last == x * (10 * p) + (10 * v + last)
  {
    Swap(x, 10, p);
  }

  lemma JoinLast(a: string, b: string)
    requires b != "" && AllDigits(a) && AllDigits(b)
    ensures var (c, last) := (b[..|b| - 1], b[|b| - 1] as int - '0' as int);
            && AllDigits(a + c) && AllDigits(c) && AllDigits(a + b) && 0 <= last <= 9
            && DigitsValue(a + b) == 10 * DigitsValue(a + c) + last && DigitsValue(b) == 10 * DigitsValue(c) + last
            && Pow10(|b|) == 10 * Pow10(|c|)
  {
    assert (a + b)[..|a + b| - 1] == a + b[..|b| - 1];
  }

  lemma {:induction false} DigitsJoin(a: string, b: string)
    requires AllDigits(a) && AllDigits(b)
    ensures AllDigits(a + b) && DigitsValue(a + b) == DigitsValue(a) * Pow10(|b|) + DigitsValue(b)
    ensures DigitsValue(b) < Pow10(|b|)
  {
    if b == "" {
      assert a + b == a;
    } else {
      hide AllDigits, DigitsValue, Pow10;
      var c := b[..|b| - 1];
      JoinLast(a, b);
      DigitsJoin(a, c);
      TenTimes(DigitsValue(a), Pow10(|c|), DigitsValue(c), b[|b| - 1] as int - '0' as int);
    }
  }

  lemma QuotientIs(n: nat, q: nat, d: nat, r: nat)
    requires n == q * d + r && r < d
    ensures n / d == q && n % d == r
  {
    DivMod(n, d);
    Ordered(q, n / d, d);
    Ordered(n / d, q, d);
  }

  lemma {:induction false} DecimalHead(n: nat)
    ensures n > 0 ==> Decimal(n)[0] != '0'
  {
    if n >= 10 {
      DecimalHead(n / 10);
    }
  }

  // A run of digits that does not begin with zero is what Decimal prints.
  lemma {:induction false} NoLeadingZero(w: string)
    requires w != "" && AllDigits(w) && w[0] != '0'
    ensures DigitsValue(w) > 0 && w == Decimal(DigitsValue(w))
  {
    var v := w[..|w| - 1];
    if v == "" {
      assert DigitsValue(v) == 0;
    } else {
      NoLeadingZero(v);
      assert w == v + [w[|w| - 1]];
    }
  }

  lemma WholePart(d: Dec, whole: string, fraction: string)
    requires d.exp < 0 && |fraction| == -d.exp && AllDigits(whole + fraction)
    requires whole != "" && (whole == "0" || whole[0] != '0')
    requires DigitsValue(whole + fraction) == Abs(d.coef)
    ensures whole == Decimal(WholeOf(d))
    ensures AllDigits(fraction) && DigitsValue(fraction) == PlacesOf(d)
  {
    assert forall k | 0 <= k < |whole| :: (whole + fraction)[k] == whole[k];
    assert forall k | 0 <= k < |fraction| :: (whole + fraction)[|whole| + k] == fraction[k];
    DigitsJoin(whole, fraction);
    hide DigitsValue;
    QuotientIs(Abs(d.coef), DigitsValue(whole), Pow10(-d.exp), DigitsValue(fraction));
    if whole == "0" {
      assert whole[..0] == "" && DigitsValue(whole) == 0;
    } else {
      NoLeadingZero(whole);
    }
  }

  function Quotient(n: nat, d: nat): nat
    requires d > 0
  {
    n / d
  }

  // The whole part and the places of a number with places, as integers.
  function WholeOf(d: Dec): nat
    requires d.exp < 0
  {
    Quotient(Abs(d.coef), Pow10(-d.exp))
  }

  function PlacesOf(d: Dec): int
    requires d.exp < 0
  {
    Abs(d.coef) % Pow10(-d.exp)
  }

  /** A number with places is printed plainly: a minus sign only if it is negative,
      the whole part without leading zeros, a point and exactly its places. */
  lemma PlainText(d: Dec) returns (fraction: string)
    requires d.exp < 0
    ensures ToString(d) == PlainSign(d) + Decimal(WholeOf(d)) + "." + fraction
    ensures |fraction| == -d.exp && AllDigits(fraction) && DigitsValue(fraction) == PlacesOf(d)
  {
    var sign, whole;
    sign, whole, fraction := PrintedParts(d);
    hide ToString, Decimal, DigitsValue, WholeOf, PlacesOf, Signed;
    WholePart(d, whole, fraction);
  }

  /** The text parses back to exactly the chosen multiple of the increment: printing
      to a fixed number of places rounds nothing away. */
  lemma OutputIsAMultiple(value: string, increment: string)
    requires FormatToIncrement(value, increment).Success?
    ensures
      var (v, inc) := (NewFromString(value).value, NewFromString(increment).value);
      && inc.coef > 0
      && FormatToIncrement(value, increment).value == ToString(Output(v, inc))
      && NewFromString(FormatToIncrement(value, increment).value) == Some(Output(v, inc))
  {
    var (v, inc) := (NewFromString(value).value, NewFromString(increment).value);
    var d := Dec(Multiple(v, inc) * inc.coef, inc.exp);
    assert Mul(Floor(Div(v, inc)), inc) == d by {
      assert Floor(Div(v, inc)).exp == 0;
    }
    RoundIsExact(d);
    hide Round, Multiple, NewFromString, ToString;
    PrintParses(Output(v, inc));
  }

  /** The answer in every case: which error, if any, and otherwise a text. A value
      with more places than the increment is no error, it is floored. */
  lemma FormatAnswers(value: string, increment: string)
    ensures
      var (v, inc, r) := (NewFromString(value), NewFromString(increment), FormatToIncrement(value, increment));
      && (r.Success? <==> v.Some? && inc.Some? && inc.value.coef > 0 && IsInt32(v.value.exp - inc.value.exp + PLACES))
      && (r == Failure(BadValue) <==> v.None?)
      && (r == Failure(BadIncrement) <==> v.Some? && inc.None?)
      && (r == Failure(IncrementNotPositive) <==> v.Some? && inc.Some? && inc.value.coef <= 0)
  {
    hide NewFromString;
  }

  lemma MultipleOfMultiple(k: int, inc: Dec)
    requires inc.coef > 0
    ensures inc.exp < 0 ==> Multiple(Dec(k * inc.coef, inc.exp), inc) == k
    ensures inc.exp >= 0 ==> Multiple(Dec(k * inc.coef * Pow10(inc.exp), 0), inc) == k
  {
    var v := if inc.exp < 0 then Dec(k * inc.coef, inc.exp) else Dec(k * inc.coef * Pow10(inc.exp), 0);
    Scales(v, inc);
    var d := Den(v, inc);
    if inc.exp >= 0 {
      Associate(k, inc.coef, Pow10(inc.exp));
    }
    assert Num(v, inc) == k * d;
    MultipleReaches(v, inc, k);
    MultipleReaches(v, inc, k + 1);
    Distribute(k, 1, d);
  }

  /** Formatting what was formatted changes nothing. */
  lemma FormattingIsIdempotent(value: string, increment: string)
    requires FormatToIncrement(value, increment).Success?
    ensures FormatToIncrement(FormatToIncrement(value, increment).value, increment)
            == FormatToIncrement(value, increment)
  {
    var (v, inc) := (NewFromString(value).value, NewFromString(increment).value);
    OutputIsAMultiple(value, increment);
    MultipleOfMultiple(Multiple(v, inc), inc);
    var w := Output(v, inc);
    assert Output(w, inc) == w;
    assert FormatToIncrement(FormatToIncrement(value, increment).value, increment).Success?;
    OutputIsAMultiple(FormatToIncrement(value, increment).value, increment);
  }

  /** A larger value never formats to a smaller text, both read as numbers. */
  lemma FormattingIsMonotone(small: string, large: string, increment: string)
    requires FormatToIncrement(small, increment).Success? && FormatToIncrement(large, increment).Success?
    requires LessEq(NewFromString(small).value, NewFromString(large).value)
    ensures
      var (a, b) := (FormatToIncrement(small, increment).value, FormatToIncrement(large, increment).value);
      && NewFromString(a).Some? && NewFromString(b).Some?
      && LessEq(NewFromString(a).value, NewFromString(b).value)
  {
    var (v, w, inc) := (NewFromString(small).value, NewFromString(large).value, NewFromString(increment).value);
    OutputIsAMultiple(small, increment);
    OutputIsAMultiple(large, increment);
    MultipleIsMonotone(v, w, inc);
    Ordered(Multiple(v, inc), Multiple(w, inc), inc.coef);
    if inc.exp >= 0 {
      Ordered(Multiple(v, inc) * inc.coef, Multiple(w, inc) * inc.coef, Pow10(inc.exp));
    }
    hide Multiple, LessEq, FormatToIncrement;
    SameExponent(Output(v, inc), Output(w, inc));
  }

  lemma SameExponent(a: Dec, b: Dec)
    requires a.exp == b.exp
    ensures LessEq(a, b) <==> a.coef <= b.coef
  {}
}
