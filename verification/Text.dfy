/** String helpers standing in for the Go library calls the client makes: decimal
    printing and parsing, joining, sorting and ASCII case and space handling. */
module Text {
  import opened Wrappers

  // ---------------------------------------------------------------------
  // Decimal numerals: strconv.FormatUint(n, 10) and its inverse

  predicate IsDigit(c: char) {
    '0' <= c <= '9'
  }

  predicate AllDigits(s: string) {
    forall i | 0 <= i < |s| :: IsDigit(s[i])
  }

  function Digit(d: nat): char
    requires d < 10
  {
    ('0' as int + d) as char
  }

  function Decimal(n: nat): (s: string)
    ensures |s| > 0 && AllDigits(s)
  {
    if n < 10 then [Digit(n)] else Decimal(n / 10) + [Digit(n % 10)]
  }

  // strconv.FormatInt(n, 10)
  function SignedDecimal(n: int): string {
    if n < 0 then "-" + Decimal(-n) else Decimal(n)
  }

  function DigitsValue(s: string): (n: nat)
    requires AllDigits(s)
  {
    if s == [] then 0 else 10 * DigitsValue(s[..|s| - 1]) + (s[|s| - 1] as int - '0' as int)
  }

  function ParseDigits(s: string): Option<nat> {
    if s == [] || !AllDigits(s) then None else Some(DigitsValue(s))
  }

  lemma {:induction false} DecimalParses(n: nat)
    ensures ParseDigits(Decimal(n)) == Some(n)
  {
    var s := Decimal(n);
    if n < 10 {
      assert s == [Digit(n)] && s[..|s| - 1] == "";
      assert DigitsValue(s) == 10 * DigitsValue("") + n;
    } else {
      DecimalParses(n / 10);
      assert s[..|s| - 1] == Decimal(n / 10);
    }
  }

  // strconv.ParseInt(s, 10, ...) without its range: an optional sign, then digits.
  function ParseSigned(s: string): Option<int> {
    var signed := s != "" && (s[0] == '-' || s[0] == '+');
    var digits := ParseDigits(if signed then s[1..] else s);
    if digits.None? then None
    else
      var n: int := digits.value;
      Some(if signed && s[0] == '-' then -n else n)
  }

  lemma SignedDecimalParses(n: int)
    ensures ParseSigned(SignedDecimal(n)) == Some(n)
  {
    var s := SignedDecimal(n);
    if n < 0 {
      assert s[1..] == Decimal(-n);
      DecimalParses(-n);
    } else {
      assert IsDigit(s[0]);
      DecimalParses(n);
    }
  }

  // ---------------------------------------------------------------------
  // strings.Join with a one-character separator

  function Join(parts: seq<string>, sep: char): string {
    if parts == [] then ""
    else if |parts| == 1 then parts[0]
    else parts[0] + [sep] + Join(parts[1..], sep)
  }

  // Where the first separator of s is, or |s|.
  function Cut(s: string, sep: char): (i: nat)
    ensures i <= |s| && sep !in s[..i]
    ensures i < |s| ==> s[i] == sep
  {
    if s == "" || s[0] == sep then 0
    else
      var j := Cut(s[1..], sep);
      assert s[..j + 1] == [s[0]] + s[1..][..j];
      j + 1
  }

  lemma {:induction false} CutUnique(s: string, sep: char, i: nat)
    requires i <= |s| && sep !in s[..i] && (i < |s| ==> s[i] == sep)
    ensures Cut(s, sep) == i
  {
    if i > 0 {
      assert s[0] == s[..i][0];
      assert s[1..][..i - 1] == s[..i][1..];
      CutUnique(s[1..], sep, i - 1);
    }
  }

  // ---------------------------------------------------------------------
  // sort.Strings: bytewise order

  predicate LexLe(a: string, b: string) {
    a == "" || (b != "" && (a[0] < b[0] || (a[0] == b[0] && LexLe(a[1..], b[1..]))))
  }

  predicate Sorted(s: seq<string>) {
    forall i | 0 < i < |s| :: LexLe(s[i - 1], s[i])
  }

  lemma {:induction false} LexTotal(a: string, b: string)
    ensures LexLe(a, b) || LexLe(b, a)
  {
    if a != "" && b != "" && a[0] == b[0] {
      LexTotal(a[1..], b[1..]);
    }
  }

  function Insert(x: string, s: seq<string>): (r: seq<string>)
    requires Sorted(s)
    ensures Sorted(r) && multiset(r) == multiset{x} + multiset(s)
    ensures r != [] && (r[0] == x || (s != [] && r[0] == s[0]))
  {
    if s == [] || LexLe(x, s[0]) then [x] + s
    else
      LexTotal(x, s[0]);
      assert s == [s[0]] + s[1..];
      assert Sorted(s[1..]);
      [s[0]] + Insert(x, s[1..])
  }

  function Sort(s: seq<string>): (r: seq<string>)
    ensures Sorted(r) && multiset(r) == multiset(s)
  {
    if s == [] then []
    else
      assert s == [s[0]] + s[1..];
      Insert(s[0], Sort(s[1..]))
  }

  // ---------------------------------------------------------------------
  // ASCII upper-casing and trimming

  function Upper(c: char): char {
    if 'a' <= c <= 'z' then (c as int - ('a' as int - 'A' as int)) as char else c
  }

  function ToUpper(s: string): (r: string)
    ensures |r| == |s|
  {
    seq(|s|, i requires 0 <= i < |s| => Upper(s[i]))
  }

  // The white space strings.TrimSpace removes from an ASCII string.
  predicate IsSpace(c: char) {
    c == ' ' || '\t' <= c <= '\r'
  }

  predicate IsBlank(c: char) {
    c == ' ' || c == '\t'
  }

  // The shortest slice of s left after removing characters of class p at both ends.
  function Trim(s: string, p: char -> bool): (r: string) {
    if s == "" then ""
    else if p(s[0]) then Trim(s[1..], p)
    else if p(s[|s| - 1]) then Trim(s[..|s| - 1], p)
    else s
  }

  lemma {:induction false} TrimEnds(s: string, p: char -> bool)
    ensures |Trim(s, p)| <= |s|
    ensures Trim(s, p) == "" || (!p(Trim(s, p)[0]) && !p(Trim(s, p)[|Trim(s, p)| - 1]))
    ensures Trim(s, p) == s <==> s == "" || (!p(s[0]) && !p(s[|s| - 1]))
  {
    if s == "" {
    } else if p(s[0]) {
      TrimEnds(s[1..], p);
    } else if p(s[|s| - 1]) {
      TrimEnds(s[..|s| - 1], p);
    }
  }

  // Trimming one end first makes no difference.
  lemma {:induction false} TrimLast(s: string, p: char -> bool)
    requires s != "" && p(s[|s| - 1])
    ensures Trim(s, p) == Trim(s[..|s| - 1], p)
  {
    if |s| == 1 {
      assert s[1..] == "" && s[..0] == "";
    } else if p(s[0]) {
      TrimLast(s[1..], p);
      assert s[1..][..|s[1..]| - 1] == s[..|s| - 1][1..];
    }
  }

  // Trimming the narrower class first makes no difference.
  lemma {:induction false} TrimTwice(s: string, p: char -> bool, q: char -> bool)
    requires forall c :: p(c) ==> q(c)
    ensures Trim(Trim(s, p), q) == Trim(s, q)
  {
    if s == "" {
    } else if p(s[0]) {
      TrimTwice(s[1..], p, q);
    } else if p(s[|s| - 1]) {
      TrimTwice(s[..|s| - 1], p, q);
      TrimLast(s, q);
    }
  }

  lemma {:induction false} UpperTrim(s: string, p: char -> bool)
    requires forall c :: p(Upper(c)) == p(c)
    ensures Trim(ToUpper(s), p) == ToUpper(Trim(s, p))
  {
    if s == "" {
    } else if p(s[0]) {
      assert ToUpper(s)[1..] == ToUpper(s[1..]);
      UpperTrim(s[1..], p);
    } else if p(s[|s| - 1]) {
      assert ToUpper(s)[..|s| - 1] == ToUpper(s[..|s| - 1]);
      UpperTrim(s[..|s| - 1], p);
    }
  }

  lemma UpperTwice(s: string)
    ensures ToUpper(ToUpper(s)) == ToUpper(s)
  {
    assert forall i | 0 <= i < |s| :: ToUpper(ToUpper(s))[i] == ToUpper(s)[i];
  }
}
