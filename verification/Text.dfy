/** Strings as the server's C++ code sees them: whitespace, words, lines.
    A Dafny `char` stands for one byte. */
module Text {

  /** `isspace` in the "C" locale: blank, and the five controls from tab to carriage return. */
  predicate IsSpace(c: char) {
    c == ' ' || '\t' <= c <= '\r'
  }

  /** A nonempty string without whitespace: what `stream >> word` can produce. */
  predicate IsWord(w: string) {
    && |w| > 0
    && forall i | 0 <= i < |w| :: !IsSpace(w[i])
  }

  predicate AllWords(ws: seq<string>) {
    forall i | 0 <= i < |ws| :: IsWord(ws[i])
  }

  /** Length of the longest prefix of `s` that is whitespace. */
  function SpaceLength(s: string): (n: nat)
    ensures n <= |s|
    ensures forall i | 0 <= i < n :: IsSpace(s[i])
    ensures n < |s| ==> !IsSpace(s[n])
  {
    if |s| > 0 && IsSpace(s[0]) then 1 + SpaceLength(s[1..]) else 0
  }

  function SkipSpaces(s: string): (r: string) {
    s[SpaceLength(s)..]
  }

  /** Length of the longest prefix of `s` without whitespace. */
  function WordLength(s: string): (n: nat)
    ensures n <= |s|
    ensures forall i | 0 <= i < n :: !IsSpace(s[i])
    ensures n < |s| ==> IsSpace(s[n])
  {
    if |s| > 0 && !IsSpace(s[0]) then 1 + WordLength(s[1..]) else 0
  }

  /** All words of `s`, in order: the result of reading `s` with `>>` until it fails. */
  function Words(s: string): (ws: seq<string>)
    decreases |s|
  {
    var r := SkipSpaces(s);
    if r == [] then [] else
      var n := WordLength(r);
      [r[..n]] + Words(r[n..])
  }

  lemma AllWordsCons(w: string, ws: seq<string>)
    requires IsWord(w) && AllWords(ws)
    ensures AllWords([w] + ws)
  {
  }

  lemma {:induction false} WordsAreWords(s: string)
    ensures AllWords(Words(s))
    decreases |s|
  {
    var r := SkipSpaces(s);
    if r != [] {
      var n := WordLength(r);
      WordsAreWords(r[n..]);
      AllWordsCons(r[..n], Words(r[n..]));
    }
  }

  function LineLength(s: string): (n: nat)
    ensures n <= |s|
    ensures forall i | 0 <= i < n :: s[i] != '\n'
    ensures n < |s| ==> s[n] == '\n'
  {
    if |s| > 0 && s[0] != '\n' then 1 + LineLength(s[1..]) else 0
  }

  /** The text before the first newline: what `getline` stores. */
  function FirstLine(s: string): (r: string) {
    s[..LineLength(s)]
  }

  /** A `char*` turned into a `std::string`: everything before the first NUL. */
  function CString(s: string): (r: string)
    ensures |r| <= |s|
  {
    if |s| > 0 && s[0] != '\0' then [s[0]] + CString(s[1..]) else []
  }

  lemma {:induction false} CStringOfPlain(s: string)
    requires '\0' !in s
    ensures CString(s) == s
  {
    if s != "" {
      CStringOfPlain(s[1..]);
    }
  }

  lemma {:induction false} CStringHasNoNul(s: string)
    ensures '\0' !in CString(s)
  {
    if |s| > 0 && s[0] != '\0' {
      CStringHasNoNul(s[1..]);
    }
  }

  /** Nothing from the first NUL on is seen, and everything before it. */
  lemma {:induction false} CStringExactly(a: string, b: string)
    requires '\0' !in a && (b != "" ==> b[0] == '\0')
    ensures CString(a + b) == a
  {
    if a == "" {
      assert a + b == b;
    } else {
      assert (a + b)[1..] == a[1..] + b;
      CStringExactly(a[1..], b);
    }
  }

  /** No word has a character its text has not. */
  lemma {:induction false} WordsLack(s: string, c: char)
    requires c !in s
    ensures forall i | 0 <= i < |Words(s)| :: c !in Words(s)[i]
    decreases |s|
  {
    var r := SkipSpaces(s);
    if r != [] {
      var n := WordLength(r);
      SliceLacks(s, SpaceLength(s), c);
      SliceLacks(r, n, c);
      WordsLack(r[n..], c);
      assert Words(s) == [r[..n]] + Words(r[n..]);
    }
  }

  lemma SliceLacks(s: string, n: nat, c: char)
    requires c !in s && n <= |s|
    ensures c !in s[..n] && c !in s[n..]
  {
  }

  /** Every argument preceded by one blank. */
  function Spread(args: seq<string>): (s: string) {
    if args == [] then "" else " " + args[0] + Spread(args[1..])
  }

  lemma {:induction false} SpreadAppend(args: seq<string>, a: string)
    ensures Spread(args + [a]) == Spread(args) + " " + a
  {
    if args == [] {
      assert [a][1..] == [];
    } else {
      assert (args + [a])[1..] == args[1..] + [a];
      SpreadAppend(args[1..], a);
    }
  }

  lemma WordLengthOfWord(w: string, rest: string)
    requires forall i | 0 <= i < |w| :: !IsSpace(w[i])
    requires rest == [] || IsSpace(rest[0])
    ensures WordLength(w + rest) == |w|
  {
    var s := w + rest;
    assert forall i | 0 <= i < |w| :: s[i] == w[i];
    assert rest != [] ==> s[|w|] == rest[0];
  }

  /** Reading back words that were written with one blank before each. */
  lemma {:induction false} WordsOfSpread(args: seq<string>)
    requires AllWords(args)
    ensures Words(Spread(args)) == args
  {
    if args != [] {
      var s, tail := Spread(args), Spread(args[1..]);
      var r := args[0] + tail;
      assert s == " " + r;
      assert SpaceLength(s) == 1;
      WordLengthOfWord(args[0], tail);
      assert r[..|args[0]|] == args[0] && r[|args[0]|..] == tail;
      WordsOfSpread(args[1..]);
    }
  }

  /** Normal spacing is the shortest spacing: text that starts with whitespace
      never gets longer when its words are spread out again. */
  lemma {:induction false} SpreadOfWordsIsShort(s: string)
    requires s == [] || IsSpace(s[0])
    ensures |Spread(Words(s))| <= |s|
    decreases |s|
  {
    var r := SkipSpaces(s);
    if r != [] {
      var n := WordLength(r);
      assert |r| < |s|;
      SpreadOfWordsIsShort(r[n..]);
      assert Words(s)[1..] == Words(r[n..]);
    }
  }

  lemma FirstLineOfPrefix(a: string, b: string)
    requires '\n' !in a
    requires b == [] || b[0] == '\n'
    ensures FirstLine(a + b) == a
  {
    var s := a + b;
    assert forall i | 0 <= i < |a| :: s[i] == a[i];
    assert b != [] ==> s[|a|] == b[0];
    assert LineLength(s) == |a|;
  }

  lemma {:induction false} SpreadHasNoNewline(args: seq<string>)
    requires AllWords(args)
    ensures '\n' !in Spread(args)
  {
    if args != [] {
      SpreadHasNoNewline(args[1..]);
      assert IsWord(args[0]);
      forall i | 0 <= i < |args[0]| ensures args[0][i] != '\n' {
        assert !IsSpace(args[0][i]);
      }
    }
  }
}
