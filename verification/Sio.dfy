/** The signal-safe number printer of csapp.c: digits are produced backwards
    into the caller's array, which is then reversed in place. */
module Sio {
  import opened Digits

  const LONG_MIN: int := -0x8000_0000_0000_0000
  const LONG_MAX: int := 0x7fff_ffff_ffff_ffff

  function Reversed(s: string): (r: string)
    ensures |r| == |s|
  {
    if s == [] then [] else [s[|s| - 1]] + Reversed(s[..|s| - 1])
  }

  lemma {:induction false} ReversedAt(s: string, k: nat)
    requires k < |s|
    ensures Reversed(s)[k] == s[|s| - 1 - k]
  {
    if k > 0 {
      ReversedAt(s[..|s| - 1], k - 1);
    }
  }

  lemma ReversedAppend(s: string, c: char)
    ensures Reversed(s + [c]) == [c] + Reversed(s)
  {
    assert (s + [c])[..|s|] == s;
  }

  /** `n` is the length of the NUL-terminated string at the front of `a`. */
  ghost predicate Terminated(a: seq<char>, n: int) {
    0 <= n < |a| && a[n] == '\0' && forall k | 0 <= k < n :: a[k] != '\0'
  }

  method Strlen(s: array<char>) returns (n: int)
    requires '\0' in s[..]
    ensures Terminated(s[..], n)
  {
    n := 0;
    while s[n] != '\0'
      invariant 0 <= n < s.Length
      invariant forall k | 0 <= k < n :: s[k] != '\0'
      invariant '\0' in s[..]
      decreases s.Length - n
    {
      if n == s.Length - 1 {
        assert forall k | 0 <= k < s.Length :: s[k] != '\0';
      }
      n := n + 1;
    }
  }

  /** Reverses the string in place, up to but excluding its terminator. */
  method Reverse(s: array<char>, ghost n: int)
    requires Terminated(s[..], n)
    modifies s
    ensures s[..] == Reversed(old(s[..n])) + old(s[n..])
  {
    var len := Strlen(s);
    assert len == n;
    var i, j := 0, len - 1;
    while i < j
      invariant 0 <= i <= n && i + j == n - 1
      invariant forall k | 0 <= k < i :: s[k] == old(s[n - 1 - k]) && s[n - 1 - k] == old(s[k])
      invariant forall k | i <= k <= j :: s[k] == old(s[k])
      invariant forall k | n <= k < s.Length :: s[k] == old(s[k])
    {
      var c := s[i];
      s[i] := s[j];
      s[j] := c;
      i, j := i + 1, j - 1;
    }
    ghost var was := old(s[..n]);
    forall k | 0 <= k < n ensures s[k] == Reversed(was)[k] {
      ReversedAt(was, k);
    }
  }

  /** The text of `v` in base `b`. */
  function Render(v: int, b: nat): (s: string)
    requires 2 <= b <= 36
  {
    if v < 0 then "-" + Numeral(0 - v, b) else Numeral(v, b)
  }

  /** Reading a signed numeral back. */
  function ReadSigned(s: string, b: nat): int {
    if |s| > 0 && s[0] == '-' then 0 - Denotes(s[1..], b) else Denotes(s, b)
  }

  method Ltoa(v: int, s: array<char>, b: nat)
    requires LONG_MIN < v <= LONG_MAX
    requires 2 <= b <= 36
    requires s.Length >= 128
    modifies s
    ensures |Render(v, b)| <= 64
    ensures s[..|Render(v, b)| + 1] == Render(v, b) + ['\0']
    ensures s[|Render(v, b)| + 1..] == old(s[|Render(v, b)| + 1..])
  {
    var neg := v < 0;
    var u: nat := if neg then 0 - v else v;
    LongIsShort(u, b);
    NumeralHasDigits(u, b);
    DigitsAreNotSpaces(Numeral(u, b), b);
    var i := GenerateDigits(u, s, b);
    NoNulBackwards(s[..i]);
    ghost var digits := s[..i];
    if neg {
      ReversedAppend(digits, '-');
      s[i] := '-';
      i := i + 1;
      assert s[..i] == digits + ['-'];
    }
    assert Reversed(s[..i]) == Render(v, b);
    assert s[i..] == old(s[i..]);
    Terminate(s, i);
  }

  /** The end of `sio_ltoa`: terminate the string and turn it round. */
  method Terminate(s: array<char>, i: nat)
    requires i < s.Length && '\0' !in s[..i]
    modifies s
    ensures s[..i + 1] == Reversed(old(s[..i])) + ['\0']
    ensures s[i + 1..] == old(s[i + 1..])
  {
    ghost var front, rest := s[..i], s[i + 1..];
    s[i] := '\0';
    assert s[..i] == front && s[i..] == ['\0'] + rest;
    Reverse(s, i);
    assert s[..] == Reversed(front) + (['\0'] + rest);
    assert s[..i + 1] == s[..][..i + 1] && s[i + 1..] == s[..][i + 1..];
  }

  /** The do-while loop of `sio_ltoa`: least significant digit first. */
  method GenerateDigits(m: nat, s: array<char>, b: nat) returns (i: nat)
    requires 2 <= b <= 36
    requires |Numeral(m, b)| <= 63 && s.Length >= 128
    modifies s
    ensures i == |Numeral(m, b)|
    ensures Reversed(s[..i]) == Numeral(m, b)
    ensures s[i..] == old(s[i..])
  {
    i := 0;
    var u: nat := m;
    assert Numeral(m, b) + Reversed(s[..0]) == Numeral(m, b);
    while true
      invariant i < 63
      invariant Numeral(m, b) == Numeral(u, b) + Reversed(s[..i])
      invariant s[i..] == old(s[i..])
      decreases u
    {
      ghost var before, rest := s[..i], s[i..];
      var c := DigitChar(u % b);
      s[i] := c;
      i := i + 1;
      assert s[..i] == before + [c];
      assert s[i..] == rest[1..];
      ReversedAppend(before, c);
      NumeralStep(u, b);
      u := u / b;
      if u == 0 {
        break;
      }
    }
  }

  /** Peeling the last digit off a numeral. */
  lemma NumeralStep(u: nat, b: nat)
    requires 2 <= b <= 36
    ensures Numeral(u, b) == (if u / b == 0 then [] else Numeral(u / b, b)) + [DigitChar(u % b)]
    ensures |Numeral(u / b, b)| >= 1
    ensures u / b > 0 ==> u / b < u
  {
    NumeralLeads(u / b, b);
    QuotientShrinks(u, b);
    if u < b {
      assert [] + [DigitChar(u)] == [DigitChar(u)];
    }
  }

  lemma {:induction false} NoNulBackwards(s: string)
    requires forall k | 0 <= k < |s| :: Reversed(s)[k] != '\0'
    ensures forall k | 0 <= k < |s| :: s[k] != '\0'
  {
    forall k | 0 <= k < |s| ensures s[k] != '\0' {
      var j := |s| - 1 - k;
      ReversedAt(s, j);
      assert Reversed(s)[j] != '\0';
    }
  }

  lemma {:induction false} PowerSum(b: nat, m: nat, n: nat)
    ensures Power(b, m + n) == Power(b, m) * Power(b, n)
  {
    if m > 0 {
      PowerSum(b, m - 1, n);
      var x, y := Power(b, m - 1), Power(b, n);
      assert b * (x * y) == (b * x) * y;
    }
  }

  lemma LongWidth()
    ensures Power(2, 63) == LONG_MAX + 1
  {
    assert Power(2, 7) == 128;
    PowerSum(2, 7, 7);
    assert Power(2, 14) == 0x4000;
    PowerSum(2, 14, 7);
    assert Power(2, 21) == 0x20_0000;
    PowerSum(2, 21, 21);
    assert Power(2, 42) == 0x400_0000_0000;
    PowerSum(2, 42, 21);
  }

  /** No long has more than 63 digits, in any base. */
  lemma LongIsShort(u: nat, b: nat)
    requires u <= LONG_MAX && 2 <= b <= 36
    ensures |Numeral(u, b)| <= 63
  {
    LongWidth();
    PowerGrows(2, b, 63);
    NumeralIsShort(u, b, 63);
  }

  /** What `Ltoa` leaves in the array reads back as the number, carries a sign
      only if negative, and has no superfluous leading zero. */
  lemma RenderReadsBack(v: int, b: nat)
    requires 2 <= b <= 36
    ensures ReadSigned(Render(v, b), b) == v
    ensures Render(v, b)[0] == '-' <==> v < 0
    ensures Render(v, b)[0] == '0' ==> Render(v, b) == "0"
    ensures v < 0 ==> |Render(v, b)| > 1 && Render(v, b)[1] != '0'
  {
    var m: nat := if v < 0 then 0 - v else v;
    NumeralDenotes(m, b);
    NumeralLeads(m, b);
    NumeralHasDigits(m, b);
    DigitsAreNotSpaces(Numeral(m, b), b);
    if v < 0 {
      assert Render(v, b)[1..] == Numeral(m, b);
    }
  }
}
