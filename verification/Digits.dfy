/** Positional numerals, and the two C++ library conversions the stack machine uses. */
module Digits {
  import opened Text

  const INT_MIN: int := -0x8000_0000
  const INT_MAX: int := 0x7fff_ffff

  predicate IsInt(x: int) {
    INT_MIN <= x <= INT_MAX
  }

  function DigitChar(d: nat): (c: char)
    requires d < 36
    ensures DigitValue(c) == d
    ensures !IsSpace(c) && c != '-' && c != '+' && c != '\0'
    ensures c == '0' <==> d == 0
  {
    if d < 10 then ('0' as int + d) as char else ('a' as int + d - 10) as char
  }

  /** The digit a character denotes; 36 when it denotes none. */
  function DigitValue(c: char): (d: nat)
    ensures d <= 36
  {
    if '0' <= c <= '9' then c as int - '0' as int
    else if 'a' <= c <= 'z' then c as int - 'a' as int + 10
    else 36
  }

  ghost predicate IsNumeral(s: string, b: nat) {
    |s| > 0 && forall i | 0 <= i < |s| :: DigitValue(s[i]) < b
  }

  /** The number a digit string denotes in base `b`. */
  function Denotes(s: string, b: nat): (v: nat) {
    if s == [] then 0 else Denotes(s[..|s| - 1], b) * b + DigitValue(s[|s| - 1])
  }

  lemma DigitsAre(d: nat)
    requires d < 36
    ensures DigitChar(d) == "0123456789abcdefghijklmnopqrstuvwxyz"[d]
  {
  }

  lemma ProductGrows(b: nat, c: nat, p: nat, q: nat)
    requires b <= c && p <= q
    ensures b * p <= c * q
  {
    assert c * q - b * p == (c - b) * q + b * (q - p);
  }

  lemma DivisionParts(v: nat, b: nat)
    requires b > 0
    ensures v == (v / b) * b + v % b
  {
  }

  lemma PartsShrink(u: nat, b: nat, q: nat, r: nat)
    requires b >= 2 && r < b && u == q * b + r
    ensures u < b ==> q == 0 && r == u
    ensures u >= b ==> 0 < q < u
  {
    if q > 0 {
      ProductGrows(1, q, b, b);
      ProductGrows(q, q, 2, b);
    }
  }

  lemma QuotientShrinks(u: nat, b: nat)
    requires b >= 2
    ensures u < b ==> u / b == 0 && u % b == u
    ensures u >= b ==> 0 < u / b < u
    ensures u % b < b
  {
    DivisionParts(u, b);
    PartsShrink(u, b, u / b, u % b);
  }

  /** The numeral of `v` in base `b`, most significant digit first. */
  function Numeral(v: nat, b: nat): (s: string)
    requires 2 <= b <= 36
    decreases v
  {
    if v < b then [DigitChar(v)]
    else QuotientShrinks(v, b); Numeral(v / b, b) + [DigitChar(v % b)]
  }

  lemma AppendDigit(s: string, d: char, b: nat)
    requires IsNumeral(s, b) && DigitValue(d) < b
    ensures IsNumeral(s + [d], b)
  {
  }

  lemma {:induction false} NumeralHasDigits(v: nat, b: nat)
    requires 2 <= b <= 36
    ensures IsNumeral(Numeral(v, b), b)
    decreases v
  {
    if v >= b {
      QuotientShrinks(v, b);
      NumeralHasDigits(v / b, b);
      AppendDigit(Numeral(v / b, b), DigitChar(v % b), b);
    }
  }

  lemma {:induction false} DenotesAppend(s: string, d: char, b: nat)
    ensures Denotes(s + [d], b) == Denotes(s, b) * b + DigitValue(d)
  {
    assert (s + [d])[..|s|] == s;
  }

  lemma DenotesDigit(d: char, b: nat)
    ensures Denotes([d], b) == DigitValue(d)
  {
    assert [d] == [] + [d];
    DenotesAppend([], d, b);
  }

  lemma ProductSplits(d: nat, p: nat, q: nat, r: nat, b: nat)
    ensures (d * p + q) * b + r == d * (b * p) + (q * b + r)
  {
  }

  /** In every base, the first digit counts as many times the base as digits follow. */
  lemma {:induction false} DenotesPrepend(c: char, s: string, b: nat)
    ensures Denotes([c] + s, b) == DigitValue(c) * Power(b, |s|) + Denotes(s, b)
    decreases |s|
  {
    if s == "" {
      assert [c] + s == [c];
      DenotesDigit(c, b);
    } else {
      var n := |s| - 1;
      assert ([c] + s)[..|s|] == [c] + s[..n];
      DenotesPrepend(c, s[..n], b);
      ProductSplits(DigitValue(c), Power(b, n), Denotes(s[..n], b), DigitValue(s[n]), b);
    }
  }

  /** A numeral denotes the number it was made from. */
  lemma {:induction false} NumeralDenotes(v: nat, b: nat)
    requires 2 <= b <= 36
    ensures Denotes(Numeral(v, b), b) == v
    decreases v
  {
    if v < b {
      DenotesDigit(DigitChar(v), b);
    } else {
      QuotientShrinks(v, b);
      NumeralDenotes(v / b, b);
      calc {
        Denotes(Numeral(v, b), b);
        Denotes(Numeral(v / b, b) + [DigitChar(v % b)], b);
        { DenotesAppend(Numeral(v / b, b), DigitChar(v % b), b); }
        (v / b) * b + v % b;
        { DivisionParts(v, b); }
        v;
      }
    }
  }

  lemma DigitsAreNotSpaces(s: string, b: nat)
    requires b <= 36 && IsNumeral(s, b)
    ensures forall i | 0 <= i < |s| :: !IsSpace(s[i]) && s[i] != '\0' && s[i] != '-' && s[i] != '+'
  {
    forall i | 0 <= i < |s| ensures !IsSpace(s[i]) && s[i] != '\0' && s[i] != '-' && s[i] != '+' {
      assert DigitValue(s[i]) < 36;
    }
  }

  /** No superfluous leading zero. */
  lemma {:induction false} NumeralLeads(v: nat, b: nat)
    requires 2 <= b <= 36
    ensures |Numeral(v, b)| > 0
    ensures Numeral(v, b)[0] == '0' <==> v == 0
    ensures v == 0 ==> |Numeral(v, b)| == 1
    decreases v
  {
    if v >= b {
      QuotientShrinks(v, b);
      NumeralLeads(v / b, b);
    }
  }

  function Power(b: nat, n: nat): (p: nat)
    ensures b > 0 ==> p > 0
  {
    if n == 0 then 1 else b * Power(b, n - 1)
  }

  lemma QuotientIsBelow(v: nat, b: nat, p: nat)
    requires b > 0 && v < b * p
    ensures v / b < p
  {
    var q := v / b;
    assert b * q <= v;
    assert b * (q - p) < 0;
  }

  /** A number below `b`^n has at most `n` digits. */
  lemma {:induction false} NumeralIsShort(v: nat, b: nat, n: nat)
    requires 2 <= b <= 36 && n > 0
    requires v < Power(b, n)
    ensures |Numeral(v, b)| <= n
    decreases n
  {
    if v >= b {
      assert n > 1 by {
        assert Power(b, 1) == b * Power(b, 0) == b;
      }
      QuotientIsBelow(v, b, Power(b, n - 1));
      NumeralIsShort(v / b, b, n - 1);
    }
  }

  lemma {:induction false} PowerGrows(b: nat, c: nat, n: nat)
    requires 0 < b <= c
    ensures Power(b, n) <= Power(c, n)
  {
    if n > 0 {
      PowerGrows(b, c, n - 1);
      var p, q := Power(b, n - 1), Power(c, n - 1);
      ProductGrows(b, c, p, q);
    }
  }

  // ----- std::to_string and std::stoi -------------------------------------

  /** `std::to_string(int)`. */
  function ToString(x: int): (s: string) {
    if x < 0 then "-" + Numeral(-x, 10) else Numeral(x, 10)
  }

  /** What `std::stoi` does: yield a number or throw one of two exceptions. */
  datatype Conversion = Value(n: int) | InvalidArgument | OutOfRange

  function Signed(negative: bool, m: nat): int {
    if negative then 0 - m else m
  }

  function DigitRun(s: string): (n: nat)
    ensures n <= |s|
    ensures forall i | 0 <= i < n :: '0' <= s[i] <= '9'
    ensures n < |s| ==> !('0' <= s[n] <= '9')
  {
    if |s| > 0 && '0' <= s[0] <= '9' then 1 + DigitRun(s[1..]) else 0
  }

  /** `std::stoi`: leading whitespace, an optional sign, then the longest run of
      digits; whatever follows the digits is ignored. */
  function Stoi(s: string): (r: Conversion) {
    StoiOfSigned(SkipSpaces(s))
  }

  function StoiOfSigned(t: string): Conversion {
    if t != [] && (t[0] == '-' || t[0] == '+') then StoiOfRun(t[0] == '-', t[1..]) else StoiOfRun(false, t)
  }

  function StoiOfRun(negative: bool, u: string): Conversion {
    var n := DigitRun(u);
    if n == 0 then InvalidArgument else
      var x := Signed(negative, Denotes(u[..n], 10));
      if IsInt(x) then Value(x) else OutOfRange
  }

  lemma {:induction false} DigitRunOfNumeral(s: string)
    requires forall i | 0 <= i < |s| :: DigitValue(s[i]) < 10
    ensures DigitRun(s) == |s|
  {
    if s != [] {
      assert DigitValue(s[0]) < 10;
      assert forall i | 0 <= i < |s| - 1 :: s[1..][i] == s[i + 1];
      DigitRunOfNumeral(s[1..]);
    }
  }

  lemma StoiOfDigits(negative: bool, d: string)
    requires |d| > 0 && d[0] != '-' && d[0] != '+' && !IsSpace(d[0])
    requires DigitRun(d) == |d|
    requires IsInt(Signed(negative, Denotes(d, 10)))
    ensures Stoi(if negative then "-" + d else d) == Value(Signed(negative, Denotes(d, 10)))
  {
    var s := if negative then "-" + d else d;
    assert SkipSpaces(s) == s;
    assert d[..|d|] == d;
    if negative {
      assert s[1..] == d;
    }
  }

  /** `stoi` undoes `to_string` on every 32-bit int. */
  lemma {:induction false} StoiOfToString(x: int)
    requires IsInt(x)
    ensures Stoi(ToString(x)) == Value(x)
  {
    var m := if x < 0 then -x else x;
    var d := Numeral(m, 10);
    NumeralHasDigits(m, 10);
    NumeralDenotes(m, 10);
    DigitsAreNotSpaces(d, 10);
    DigitRunOfNumeral(d);
    assert d[..|d|] == d;
    StoiOfDigits(x < 0, d);
  }

  /** A printed int is a word of at most eleven characters. */
  lemma ToStringIsShortWord(x: int)
    requires IsInt(x)
    ensures IsWord(ToString(x)) && '\0' !in ToString(x) && |ToString(x)| <= 11
  {
    var m := if x < 0 then -x else x;
    NumeralHasDigits(m, 10);
    DigitsAreNotSpaces(Numeral(m, 10), 10);
    assert Power(10, 10) == 10_000_000_000 by {
      assert Power(10, 5) == 100_000;
    }
    NumeralIsShort(m, 10, 10);
    assert forall i | 0 <= i < |ToString(x)| :: !IsSpace(ToString(x)[i]) && ToString(x)[i] != '\0';
  }

  // ----- what stoi reads, in every text -----------------------------------

  predicate IsDigits(d: string) {
    forall i | 0 <= i < |d| :: '0' <= d[i] <= '9'
  }

  /** The number a digit run denotes, by place value: the first digit counts most. */
  function Place(d: string): nat
    requires IsDigits(d)
  {
    if d == "" then 0
    else
      var first: nat := d[0] as int - '0' as int;
      ProductGrows(0, first, 0, Power(10, |d| - 1));
      first * Power(10, |d| - 1) + Place(d[1..])
  }

  lemma PlaceTimesTen(d: int, p: nat, q: nat)
    ensures (d * p + q) * 10 == d * (10 * p) + q * 10
  {
  }

  lemma PlacePower(n: nat)
    ensures Power(10, n + 1) == 10 * Power(10, n)
  {
  }

  lemma {:induction false} PlaceAppend(d: string, c: char)
    requires IsDigits(d) && '0' <= c <= '9'
    ensures IsDigits(d + [c]) && Place(d + [c]) == Place(d) * 10 + (c as int - '0' as int)
  {
    if d != "" {
      PlaceAppend(d[1..], c);
      assert (d + [c])[1..] == d[1..] + [c];
      PlacePower(|d| - 1);
      PlaceTimesTen(d[0] as int - '0' as int, Power(10, |d| - 1), Place(d[1..]));
    }
  }

  /** Horner's rule computes the place value. */
  lemma {:induction false} DenotesPlace(d: string)
    requires IsDigits(d)
    ensures Denotes(d, 10) == Place(d)
  {
    if d != "" {
      var n := |d| - 1;
      DenotesPlace(d[..n]);
      PlaceAppend(d[..n], d[n]);
      assert d[..n] + [d[n]] == d;
    }
  }

  /** A text as `stoi` takes it apart: whitespace, a sign or none, the longest run of
      digits, and the rest. */
  ghost predicate Splits(ws: string, sign: string, d: string, rest: string) {
    && (forall i | 0 <= i < |ws| :: IsSpace(ws[i]))
    && (sign == "" || sign == "+" || sign == "-")
    && IsDigits(d)
    && (rest != "" ==> !('0' <= rest[0] <= '9'))
    && (rest != "" && d == "" && sign == "" ==> !IsSpace(rest[0]) && rest[0] != '+' && rest[0] != '-')
  }

  lemma SkipBlanks(ws: string, t: string)
    requires forall i | 0 <= i < |ws| :: IsSpace(ws[i])
    requires t != "" ==> !IsSpace(t[0])
    ensures SkipSpaces(ws + t) == t
  {
    var s := ws + t;
    assert forall i | 0 <= i < |ws| :: s[i] == ws[i];
    assert t != "" ==> s[|ws|] == t[0];
    assert SpaceLength(s) == |ws|;
  }

  lemma RunOfDigits(d: string, rest: string)
    requires IsDigits(d) && (rest != "" ==> !('0' <= rest[0] <= '9'))
    ensures DigitRun(d + rest) == |d|
  {
    var s := d + rest;
    assert forall i | 0 <= i < |d| :: s[i] == d[i];
    assert rest != "" ==> s[|d|] == rest[0];
  }

  lemma StoiOfDigitRun(negative: bool, d: string, rest: string)
    requires IsDigits(d) && (rest != "" ==> !('0' <= rest[0] <= '9'))
    ensures var x := if negative then -(Place(d) as int) else Place(d);
            StoiOfRun(negative, d + rest) ==
              if d == "" then InvalidArgument
              else if -0x8000_0000 <= x <= 0x7fff_ffff then Value(x) else OutOfRange
  {
    RunOfDigits(d, rest);
    assert (d + rest)[..|d|] == d;
    DenotesPlace(d);
  }

  lemma StoiOfSign(sign: string, u: string)
    requires sign == "" || sign == "+" || sign == "-"
    requires sign == "" && u != "" ==> u[0] != '+' && u[0] != '-'
    ensures StoiOfSigned(sign + u) == StoiOfRun(sign == "-", u)
  {
    assert (sign + u)[|sign|..] == u;
  }

  /** `stoi` on every text: no digits, no number; otherwise the number in decimal
      notation, if it is an int of 32 bits. What follows the digits is ignored. */
  lemma {:induction false} StoiExactly(ws: string, sign: string, d: string, rest: string)
    requires Splits(ws, sign, d, rest)
    ensures var x := if sign == "-" then -(Place(d) as int) else Place(d);
            Stoi(ws + sign + d + rest) ==
              if d == "" then InvalidArgument
              else if -0x8000_0000 <= x <= 0x7fff_ffff then Value(x) else OutOfRange
  {
    var u := d + rest;
    assert ws + sign + d + rest == ws + (sign + u);
    SkipBlanks(ws, sign + u);
    StoiOfSign(sign, u);
    StoiOfDigitRun(sign == "-", d, rest);
  }

  /** Every text can be taken apart so. */
  lemma {:induction false} EveryTextSplits(s: string) returns (ws: string, sign: string, d: string, rest: string)
    ensures Splits(ws, sign, d, rest) && ws + sign + d + rest == s
  {
    var t := s[SpaceLength(s)..];
    ws := s[..SpaceLength(s)];
    sign, d, rest := SplitSign(t);
    SplitsJoin(ws, sign, d, rest, s);
  }

  lemma {:induction false} SplitSign(t: string) returns (sign: string, d: string, rest: string)
    ensures t == sign + (d + rest) && IsDigits(d) && (sign == "" || sign == "+" || sign == "-")
    ensures rest != "" ==> !('0' <= rest[0] <= '9')
    ensures rest != "" && d == "" && sign == "" ==> rest[0] == t[0] && rest[0] != '+' && rest[0] != '-'
  {
    sign := if t != "" && (t[0] == '-' || t[0] == '+') then [t[0]] else "";
    var u := t[|sign|..];
    d, rest := u[..DigitRun(u)], u[DigitRun(u)..];
    assert u == d + rest;
  }

  lemma {:induction false} SplitsJoin(ws: string, sign: string, d: string, rest: string, s: string)
    requires s == ws + (sign + (d + rest))
    ensures ws + sign + d + rest == s
  {
  }

  // ----- what to_string writes --------------------------------------------

  lemma LeadingZeros(d: string)
    requires IsDigits(d) && |d| >= 2 && d[0] != '0'
    ensures Place(d) >= 10
  {
    var p := Power(10, |d| - 1);
    PlacePower(|d| - 2);
    ProductGrows(1, d[0] as int - '0' as int, 10, p);
  }

  lemma {:induction false} NumeralOfPlace(d: string)
    requires d != "" && IsDigits(d) && (d[0] == '0' ==> |d| == 1)
    ensures Numeral(Place(d), 10) == d
  {
    var n := |d| - 1;
    var q, r := Place(d[..n]), d[n] as int - '0' as int;
    PlaceAppend(d[..n], d[n]);
    assert d[..n] + [d[n]] == d;
    if n > 0 {
      LeadingZeros(d);
      NumeralOfPlace(d[..n]);
      assert (q * 10 + r) / 10 == q && (q * 10 + r) % 10 == r;
    }
  }

  /** `to_string` writes the decimal notation of every number: a minus sign exactly if
      it is negative, no other sign, no superfluous zero. */
  lemma {:induction false} ToStringExactly(negative: bool, d: string)
    requires d != "" && IsDigits(d) && (d[0] == '0' ==> |d| == 1 && !negative)
    ensures ToString(if negative then -(Place(d) as int) else Place(d)) == if negative then "-" + d else d
  {
    NumeralOfPlace(d);
    if negative {
      NotZero(d);
    }
  }

  lemma NotZero(d: string)
    requires d != "" && IsDigits(d) && d[0] != '0'
    ensures Place(d) > 0
  {
    ProductGrows(1, d[0] as int - '0' as int, 1, Power(10, |d| - 1));
  }
}
