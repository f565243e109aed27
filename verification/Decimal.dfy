/** Decimal text of integers, as C++ streams print it and `std::stoll` / `std::stoul` read it back. */
module Decimal {
  import opened Wrappers

  const INT64_MIN: int := -0x8000_0000_0000_0000
  const INT64_MAX: int := 0x7fff_ffff_ffff_ffff
  const TWO_64: int := 0x1_0000_0000_0000_0000

  type int64 = x: int | INT64_MIN <= x <= INT64_MAX

  predicate IsDigit(c: char) {
    '0' <= c <= '9'
  }

  predicate IsSpace(c: char) {
    c == ' ' || '\t' <= c <= '\r'
  }

  predicate AllDigits(s: string) {
    forall c | c in s :: IsDigit(c)
  }

  function Show(n: nat): (s: string)
    ensures s != [] && AllDigits(s)
  {
    var last := [('0' as int + n % 10) as char];
    if n < 10 then last else Show(n / 10) + last
  }

  function ShowInt(i: int): (s: string)
    ensures s != [] && '\n' !in s
  {
    if i < 0 then "-" + Show(-i) else Show(i)
  }

  function Value(s: string): nat
    requires AllDigits(s)
  {
    if s == [] then 0
    else
      assert IsDigit(s[|s| - 1]);
      Value(s[..|s| - 1]) * 10 + (s[|s| - 1] as int - '0' as int)
  }

  function SkipSpace(s: string): string {
    if s != [] && IsSpace(s[0]) then SkipSpace(s[1..]) else s
  }

  /** The longest prefix of digits. */
  function DigitRun(s: string): (d: string)
    ensures AllDigits(d) && d <= s
    ensures |d| < |s| ==> !IsDigit(s[|d|])
  {
    if s != [] && IsDigit(s[0]) then [s[0]] + DigitRun(s[1..]) else []
  }

  /** What `strtoll` and `strtoul` scan: white space, one optional sign, digits; the rest is ignored. */
  function Scan(s: string): (r: (bool, string))
    ensures AllDigits(r.1)
  {
    var t := SkipSpace(s);
    if t != [] && (t[0] == '-' || t[0] == '+') then (t[0] == '-', DigitRun(t[1..]))
    else (false, DigitRun(t))
  }

  /** `std::stoll`; None stands for `invalid_argument` and `out_of_range`. */
  function StoLL(s: string): (r: Option<int64>) {
    var (negative, digits) := Scan(s);
    if digits == [] then None
    else
      var magnitude: int := Value(digits);
      var v := if negative then -magnitude else magnitude;
      if INT64_MIN <= v <= INT64_MAX then Some(v) else None
  }

  /** `std::stoul` on a 64-bit platform: a minus sign negates modulo 2^64. */
  function StoUL(s: string): (r: Option<nat>)
    ensures r.Some? ==> r.value < TWO_64
  {
    var (negative, digits) := Scan(s);
    if digits == [] || Value(digits) >= TWO_64 then None
    else Some(if negative then (TWO_64 - Value(digits)) % TWO_64 else Value(digits))
  }

  lemma {:induction false} ValueOfShow(n: nat)
    ensures Value(Show(n)) == n
  {
    if n >= 10 {
      var s := Show(n);
      assert s[..|s| - 1] == Show(n / 10);
      ValueOfShow(n / 10);
    }
  }

  /** Two numbers never print alike. */
  lemma ShowInjective(m: nat, n: nat)
    requires Show(m) == Show(n)
    ensures m == n
  {
    ValueOfShow(m);
    ValueOfShow(n);
  }

  lemma {:induction false} DigitRunWhole(d: string)
    requires AllDigits(d)
    ensures DigitRun(d) == d
  {
    if d != [] {
      assert IsDigit(d[0]);
      DigitRunWhole(d[1..]);
    }
  }

  lemma ScanShow(i: int)
    ensures Scan(ShowInt(i)) == (i < 0, Show(if i < 0 then -i else i))
  {
    var digits := Show(if i < 0 then -i else i);
    assert IsDigit(digits[0]);
    DigitRunWhole(digits);
    assert ("-" + digits)[1..] == digits;
  }

  /** Reading back what was printed gives the number exactly when it is a signed 64-bit one. */
  lemma StoLLOfShow(i: int)
    ensures StoLL(ShowInt(i)) == if INT64_MIN <= i <= INT64_MAX then Some(i) else None
  {
    ScanShow(i);
    ValueOfShow(if i < 0 then -i else i);
  }

  lemma StoULOfShow(n: nat)
    ensures StoUL(Show(n)) == if n < TWO_64 then Some(n) else None
  {
    ScanShow(n);
    ValueOfShow(n);
  }

  lemma {:induction false} SkipsSpace(space: string, s: string)
    requires (forall c | c in space :: IsSpace(c)) && (s == [] || !IsSpace(s[0]))
    ensures SkipSpace(space + s) == s
  {
    if space == [] {
      assert space + s == s;
    } else {
      assert (space + s)[0] == space[0] && (space + s)[1..] == space[1..] + s;
      SkipsSpace(space[1..], s);
    }
  }

  lemma {:induction false} DigitRunOf(d: string, rest: string)
    requires AllDigits(d) && (rest == [] || !IsDigit(rest[0]))
    ensures DigitRun(d + rest) == d
  {
    if d == [] {
      assert d + rest == rest;
    } else {
      assert (d + rest)[0] == d[0] && (d + rest)[1..] == d[1..] + rest;
      DigitRunOf(d[1..], rest);
    }
  }

  /**
   * What both readers make of any text with a numeral in front: white space before
   * it, a sign of either kind and anything after it do not matter.
   */
  lemma NumeralRead(space: string, sign: string, digits: string, rest: string)
    requires (forall c | c in space :: IsSpace(c)) && (sign == "" || sign == "-" || sign == "+")
    requires digits != [] && AllDigits(digits) && (rest == [] || !IsDigit(rest[0]))
    ensures var text := space + (sign + (digits + rest));
            var magnitude: int := Value(digits);
            var v := if sign == "-" then -magnitude else magnitude;
            && (if INT64_MIN <= v <= INT64_MAX then StoLL(text) == Some(v) else StoLL(text) == None)
            && (if magnitude >= TWO_64 then StoUL(text) == None
                else if sign == "-" && magnitude > 0 then StoUL(text) == Some(TWO_64 - magnitude)
                else StoUL(text) == Some(magnitude))
  {
    hide *;
    ScanNumeral(space, sign, digits, rest);
    SignedOfScan(space + (sign + (digits + rest)), sign == "-", digits);
    UnsignedOfScan(space + (sign + (digits + rest)), sign == "-", digits);
  }

  lemma SignedOfScan(s: string, negative: bool, digits: string)
    requires AllDigits(digits) && digits != [] && Scan(s) == (negative, digits)
    ensures var magnitude: int := Value(digits);
            var v := if negative then -magnitude else magnitude;
            if INT64_MIN <= v <= INT64_MAX then StoLL(s) == Some(v) else StoLL(s) == None
  {
    hide Scan, Value, AllDigits;
  }

  lemma UnsignedOfScan(s: string, negative: bool, digits: string)
    requires AllDigits(digits) && digits != [] && Scan(s) == (negative, digits)
    ensures var magnitude: int := Value(digits);
            if magnitude >= TWO_64 then StoUL(s) == None
            else if negative && magnitude > 0 then StoUL(s) == Some(TWO_64 - magnitude)
            else StoUL(s) == Some(magnitude)
  {
    hide Scan, Value, AllDigits;
  }

  lemma ScanNumeral(space: string, sign: string, digits: string, rest: string)
    requires (forall c | c in space :: IsSpace(c)) && (sign == "" || sign == "-" || sign == "+")
    requires digits != [] && AllDigits(digits) && (rest == [] || !IsDigit(rest[0]))
    ensures Scan(space + (sign + (digits + rest))) == (sign == "-", digits)
  {
    var tail := digits + rest;
    var numeral := sign + tail;
    assert tail[0] == digits[0] && IsDigit(digits[0]);
    DigitRunOf(digits, rest);
    if sign == "" {
      assert numeral == tail;
    } else {
      assert numeral[0] == sign[0] && numeral[1..] == tail;
    }
    SkipsSpace(space, numeral);
    hide SkipSpace, DigitRun, AllDigits;
  }
}
