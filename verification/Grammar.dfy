/** The request language, without a parser: which texts spell which words, and which
    words make a message. `decode` accepts exactly this. */
module Grammar {
  import opened Codec
  import opened Messages
  import opened Text

  // ----- the alphabet -----------------------------------------------------

  lemma SpacesAre(c: char)
    ensures IsSpace(c) <==> c as int in {9, 10, 11, 12, 13, 32}
  {
  }

  const SMALL := "abcdefghijklmnopqrstuvwxyz"
  const CAPITAL := "ABCDEFGHIJKLMNOPQRSTUVWXYZ"
  const DIGIT := "0123456789"

  lemma LettersAre(c: char)
    ensures IsLetter(c) <==> c in SMALL || c in CAPITAL
  {
  }

  /** A name: letters, digits and underscores, with a letter in front. */
  predicate IsName(w: string) {
    && w != ""
    && (w[0] in SMALL || w[0] in CAPITAL)
    && forall i | 0 <= i < |w| :: w[i] in SMALL || w[i] in CAPITAL || w[i] in DIGIT || w[i] == '_'
  }

  lemma NamesAre(w: string)
    ensures IsIdentifier(w) <==> IsName(w)
  {
    forall i | 0 <= i < |w| ensures IsLetter(w[i]) <==> w[i] in SMALL || w[i] in CAPITAL {
      LettersAre(w[i]);
    }
    assert forall c :: c in DIGIT <==> '0' <= c <= '9';
  }

  /** The words for the types. */
  predicate IsCalled(k: MessageType, w: string) {
    match k
    case NONE => false
    case LOGIN => w == "LOGIN"
    case CREATE => w == "CREATE"
    case PUSH => w == "PUSH"
    case POP => w == "POP"
    case TOP => w == "TOP"
    case SET => w == "SET"
    case GET => w == "GET"
    case ADD => w == "ADD"
    case SUB => w == "SUB"
    case MUL => w == "MUL"
    case DIV => w == "DIV"
    case BEGIN => w == "BEGIN"
    case COMMIT => w == "COMMIT"
    case BYE => w == "BYE"
    case OK => w == "OK"
    case FAILED => w == "FAILED"
    case ERROR => w == "ERROR"
    case DATA => w == "DATA"
  }

  lemma CallsAre(k: MessageType, w: string)
    ensures IsCalled(k, w) <==> k != NONE && KindOf(w) == k
    ensures IsCalled(k, w) <==> k != NONE && Keyword(k) == w
  {
    KeywordNames(k);
    KindIsNamed(w);
  }

  /** The messages of the protocol: how many arguments, and of what kind. */
  predicate IsProper(m: Content) {
    match m.kind
    case LOGIN => |m.args| == 1 && IsName(m.args[0])
    case CREATE => |m.args| == 1 && IsName(m.args[0])
    case PUSH => |m.args| == 1 && exists i :: 0 <= i < |m.args[0]| && !IsSpace(m.args[0][i])
    case SET => |m.args| == 2 && IsName(m.args[0]) && IsName(m.args[1])
    case GET => |m.args| == 2 && IsName(m.args[0]) && IsName(m.args[1])
    case DATA => |m.args| == 1
    case OK => true
    case FAILED => true
    case ERROR => true
    case NONE => true
    case _ => m.args == []
  }

  lemma ProperAre(m: Content)
    ensures Conforms(m) <==> IsProper(m)
  {
    if TakesIdentifiers(m.kind) {
      NamesAreProper(m);
    } else {
      RestIsProper(m);
    }
  }

  lemma NamesAreProper(m: Content)
    requires TakesIdentifiers(m.kind)
    ensures Conforms(m) <==> IsProper(m)
  {
    if m.kind == LOGIN || m.kind == CREATE {
      OneName(m);
    } else {
      TwoNames(m);
    }
  }

  lemma OneName(m: Content)
    requires m.kind == LOGIN || m.kind == CREATE
    ensures Conforms(m) <==> |m.args| == 1 && IsName(m.args[0])
  {
    if |m.args| == 1 {
      NamesAre(m.args[0]);
      assert Conforms(m) <==> IsIdentifier(m.args[0]);
    }
  }

  lemma TwoNames(m: Content)
    requires m.kind == SET || m.kind == GET
    ensures Conforms(m) <==> |m.args| == 2 && IsName(m.args[0]) && IsName(m.args[1])
  {
    TwoIdentifiers(m);
    if |m.args| == 2 {
      NamesAre(m.args[0]);
      NamesAre(m.args[1]);
    }
  }

  lemma TwoIdentifiers(m: Content)
    requires m.kind == SET || m.kind == GET
    ensures Conforms(m) <==> |m.args| == 2 && IsIdentifier(m.args[0]) && IsIdentifier(m.args[1])
  {
    if |m.args| == 2 {
      assert Conforms(m) <==> forall i | 0 <= i < 2 :: IsIdentifier(m.args[i]);
    }
  }

  lemma RestIsProper(m: Content)
    requires !TakesIdentifiers(m.kind)
    ensures Conforms(m) <==> IsProper(m)
  {
  }

  // ----- texts and their words --------------------------------------------

  /** The words, each after its gap, and what trails behind. */
  function Spelled(gaps: seq<string>, words: seq<string>, trail: string): string
    requires |gaps| == |words|
  {
    if words == [] then trail else gaps[0] + words[0] + Spelled(gaps[1..], words[1..], trail)
  }

  /** Every word is one, and every gap is whitespace, and there. */
  ghost predicate IsText(gaps: seq<string>, words: seq<string>, trail: string) {
    && |gaps| == |words| && AllWords(words) && IsBlank(trail)
    && forall i | 0 <= i < |gaps| :: gaps[i] != "" && IsBlank(gaps[i])
  }

  lemma SkipGap(g: string, t: string)
    requires IsBlank(g) && (t != "" ==> !IsSpace(t[0]))
    ensures SkipSpaces(g + t) == t
  {
    var s := g + t;
    assert forall i | 0 <= i < |g| :: s[i] == g[i];
    assert t != "" ==> s[|g|] == t[0];
    assert SpaceLength(s) == |g|;
  }

  lemma SpelledStarts(gaps: seq<string>, words: seq<string>, trail: string)
    requires IsText(gaps, words, trail)
    ensures var t := Spelled(gaps, words, trail); t != "" ==> IsSpace(t[0])
  {
  }

  lemma FirstOfWords(g: string, w: string, t: string)
    requires IsBlank(g) && IsWord(w) && (t != "" ==> IsSpace(t[0]))
    ensures Words(g + w + t) == [w] + Words(t)
  {
    var r := w + t;
    assert g + w + t == g + r;
    assert r[0] == w[0];
    SkipGap(g, r);
    WordLengthOfWord(w, t);
    assert r[..|w|] == w && r[|w|..] == t;
  }

  /** However the words are spaced, they are what is read. */
  lemma {:induction false} WordsOfSpelled(gaps: seq<string>, words: seq<string>, trail: string)
    requires IsText(gaps, words, trail)
    ensures Words(Spelled(gaps, words, trail)) == words
  {
    if words == [] {
      SkipGap(trail, "");
      assert trail + "" == trail;
    } else {
      SpelledStarts(gaps[1..], words[1..], trail);
      WordsOfSpelled(gaps[1..], words[1..], trail);
      FirstOfWords(gaps[0], words[0], Spelled(gaps[1..], words[1..], trail));
    }
  }

  /** Every text that does not start inside a word spells its words. */
  lemma {:induction false} EveryTextSpells(s: string) returns (gaps: seq<string>, trail: string)
    requires s != "" ==> IsSpace(s[0])
    ensures IsText(gaps, Words(s), trail) && Spelled(gaps, Words(s), trail) == s
    decreases |s|
  {
    var g, r := s[..SpaceLength(s)], s[SpaceLength(s)..];
    if r == "" {
      gaps, trail := [], s;
      assert Words(s) == [];
    } else {
      var w, t := r[..WordLength(r)], r[WordLength(r)..];
      assert s == g + w + t;
      FirstOfWords(g, w, t);
      gaps, trail := EveryTextSpells(t);
      OneMoreWord(g, w, gaps, Words(t), trail);
      gaps := [g] + gaps;
    }
  }

  lemma OneMoreWord(g: string, w: string, gaps: seq<string>, words: seq<string>, trail: string)
    requires IsText(gaps, words, trail) && g != "" && IsBlank(g) && IsWord(w)
    ensures IsText([g] + gaps, [w] + words, trail)
    ensures Spelled([g] + gaps, [w] + words, trail) == g + w + Spelled(gaps, words, trail)
  {
    assert ([g] + gaps)[1..] == gaps && ([w] + words)[1..] == words;
  }

  // ----- lines ------------------------------------------------------------

  /** A line: whitespace, a first word, a text on the rest of its line, and whatever
      comes after, which is not looked at. */
  datatype Spelling = Spelling(lead: string, name: string, text: string, after: string)

  function Written(p: Spelling): string {
    p.lead + p.name + p.text + "\n" + p.after
  }

  ghost predicate IsSpelling(p: Spelling) {
    && IsBlank(p.lead) && IsWord(p.name) && '\n' !in p.text
    && (p.text != "" ==> IsSpace(p.text[0]))
    && (p.after != "" ==> p.after[|p.after| - 1] == '\n')
  }

  /** What stands before the first word does not matter. */
  lemma {:induction false} LeadIsIdle(ws: string, s: string, prior: Content)
    requires IsBlank(ws) && s != "" && |ws + s| <= MAX_ENCODED_LEN
    ensures DecodeInto(ws + s, prior) == DecodeInto(s, prior)
  {
    SkipJoins(ws, s);
    assert (ws + s)[|ws + s| - 1] == s[|s| - 1];
    DecodeSame(KindOf(TypeWord(s)), ws + s, s, prior);
  }

  lemma SkipJoins(ws: string, s: string)
    requires IsBlank(ws)
    ensures SkipSpaces(ws + s) == SkipSpaces(s)
  {
    var g, t := s[..SpaceLength(s)], s[SpaceLength(s)..];
    assert ws + s == (ws + g) + t;
    SkipGap(ws + g, t);
  }

  lemma DecodeSame(k: MessageType, s: string, t: string, prior: Content)
    requires s != "" && t != "" && s[|s| - 1] == t[|t| - 1] && TextAfterType(s) == TextAfterType(t)
    requires |s| <= MAX_ENCODED_LEN && |t| <= MAX_ENCODED_LEN
    ensures DecodeAs(k, s, prior) == DecodeAs(k, t, prior)
  {
  }

  lemma Regrouped(a: string, b: string, c: string, d: string, e: string)
    ensures a + b + c + d + e == a + (b + (c + (d + e)))
  {
  }

  lemma {:induction false} PartsOfWritten(p: Spelling)
    requires IsSpelling(p)
    ensures TypeWord(Written(p)) == p.name && TextAfterType(Written(p)) == p.text
    ensures Written(p)[|Written(p)| - 1] == '\n'
  {
    var tail := "\n" + p.after;
    Regrouped(p.lead, p.name, p.text, "\n", p.after);
    SkipJoins(p.lead, p.name + (p.text + tail));
    SplitAtWord(p.name, p.text + tail);
    FirstLineOfPrefix(p.text, tail);
  }

  /** What `decode` makes of a line that is not too long. */
  lemma {:induction false} DecodeWritten(p: Spelling, k: MessageType, prior: Content)
    requires IsSpelling(p) && |Written(p)| <= MAX_ENCODED_LEN && IsCalled(k, p.name)
    ensures DecodeInto(Written(p), prior) == Assemble(k, p.text)
  {
    PartsOfWritten(p);
    CallsAre(k, p.name);
    DecodeProperLine(k, Written(p), prior, p.text);
  }

  /** Any type but FAILED and ERROR: the words of the text are the arguments, however
      they are spaced, and the message is accepted if and only if it is proper. */
  lemma {:induction false} DecodesWords(p: Spelling, k: MessageType, gaps: seq<string>, args: seq<string>, trail: string, prior: Content)
    requires IsSpelling(p) && |Written(p)| <= MAX_ENCODED_LEN && IsCalled(k, p.name) && k != FAILED && k != ERROR
    requires IsText(gaps, args, trail) && Spelled(gaps, args, trail) == p.text
    ensures DecodeInto(Written(p), prior) ==
              (if IsProper(Content(k, args)) then Done else Invalid(NotValid), Content(k, args))
  {
    DecodeWritten(p, k, prior);
    WordsOfSpelled(gaps, args, trail);
    AssembleWords(k, p.text, args);
    ProperAre(Content(k, args));
  }

  lemma AssembleWords(k: MessageType, text: string, args: seq<string>)
    requires !CarriesQuotedText(k) && Words(text) == args
    ensures Assemble(k, text).1 == Content(k, args)
    ensures Conforms(Content(k, args)) ==> Assemble(k, text).0 == Done
    ensures !Conforms(Content(k, args)) ==> Assemble(k, text).0 == Invalid(NotValid)
  {
    WordsAreWords(text);
    WordsNeverEscape(Content(k, args));
  }

  /** FAILED and ERROR: what stands between the first quotation mark and the last, or
      after the only one. */
  lemma {:induction false} DecodesQuotation(p: Spelling, k: MessageType, a: string, t: string, b: string, prior: Content)
    requires IsSpelling(p) && |Written(p)| <= MAX_ENCODED_LEN && IsCalled(k, p.name) && (k == FAILED || k == ERROR)
    requires '"' !in a && '"' !in b
    requires p.text == a + "\"" + t + "\"" + b || (p.text == a + "\"" + t && b == "" && '"' !in t)
    ensures DecodeInto(Written(p), prior) == (Done, Content(k, [t]))
  {
    DecodeWritten(p, k, prior);
    if p.text == a + "\"" + t + "\"" + b {
      Between(a, t, b);
    } else {
      AfterMark(a, t);
    }
    QuotedAssemble(k, p.text, t);
  }

  /** Without a quotation mark such a line is rejected. */
  lemma {:induction false} DecodesNoQuotation(p: Spelling, k: MessageType, prior: Content)
    requires IsSpelling(p) && |Written(p)| <= MAX_ENCODED_LEN && IsCalled(k, p.name) && (k == FAILED || k == ERROR)
    requires '"' !in p.text
    ensures DecodeInto(Written(p), prior) == (Invalid(NoQuotation), Content(k, []))
  {
    DecodeWritten(p, k, prior);
    UnquotedAssemble(k, p.text);
  }

  lemma Between(a: string, t: string, b: string)
    requires '"' !in a && '"' !in b
    ensures var s := a + "\"" + t + "\"" + b; '"' in s && QuotedText(s) == t
  {
    var s := a + "\"" + t + "\"" + b;
    assert s == a + ("\"" + t + "\"" + b);
    FirstQuoteAt(a, "\"" + t + "\"" + b);
    assert s[|a|] == '"' && s[|a| + |t| + 1] == '"';
    assert s[|a| + |t| + 2..] == b;
    assert forall i | |a| + |t| + 2 <= i < |s| :: s[i] == b[i - |a| - |t| - 2];
    assert LastQuote(s) == |a| + |t| + 1;
    assert s[|a| + 1..|a| + 1 + |t|] == t;
  }

  lemma AfterMark(a: string, t: string)
    requires '"' !in a && '"' !in t
    ensures var s := a + "\"" + t; '"' in s && QuotedText(s) == t
  {
    var s := a + "\"" + t;
    assert s == a + ("\"" + t);
    FirstQuoteAt(a, "\"" + t);
    assert s[|a|] == '"';
    assert forall i | |a| < i < |s| :: s[i] == t[i - |a| - 1];
    assert LastQuote(s) == |a|;
    assert s[|a| + 1..] == t;
  }

  /** A first word that is none of the eighteen. */
  lemma {:induction false} DecodesNoWord(p: Spelling, prior: Content)
    requires IsSpelling(p) && |Written(p)| <= MAX_ENCODED_LEN && forall k :: !IsCalled(k, p.name)
    ensures DecodeInto(Written(p), prior) == (Invalid(NoType), prior)
  {
    PartsOfWritten(p);
    CallsAre(KindOf(p.name), p.name);
  }

  /** Every line that is not blank has such a spelling. */
  lemma {:induction false} EveryLineIsWritten(s: string) returns (p: Spelling)
    requires s != "" && s[|s| - 1] == '\n' && !IsBlank(s)
    ensures IsSpelling(p) && Written(p) == s
  {
    var lead, body := s[..SpaceLength(s)], s[SpaceLength(s)..];
    assert s == lead + body;
    assert body != "" && body[|body| - 1] == '\n';
    var name, rest := CutWord(body);
    var text, after := CutLine(rest);
    p := Spelling(lead, name, text, after);
    Regrouped(lead, name, text, "\n", after);
  }

  lemma {:induction false} CutWord(body: string) returns (name: string, rest: string)
    requires body != "" && !IsSpace(body[0]) && body[|body| - 1] == '\n'
    ensures body == name + rest && IsWord(name) && rest != "" && IsSpace(rest[0]) && rest[|rest| - 1] == '\n'
  {
    name, rest := body[..WordLength(body)], body[WordLength(body)..];
  }

  lemma {:induction false} CutLine(rest: string) returns (text: string, after: string)
    requires rest != "" && IsSpace(rest[0]) && rest[|rest| - 1] == '\n'
    ensures rest == text + ("\n" + after) && '\n' !in text && (text != "" ==> IsSpace(text[0]))
    ensures after != "" ==> after[|after| - 1] == '\n'
  {
    var n := LineLength(rest);
    text, after := rest[..n], rest[n + 1..];
    assert rest[n..] == "\n" + after;
    assert rest == text + rest[n..];
  }

  lemma {:induction false} BlankHasNoType(s: string)
    ensures IsBlank(s) ==> KindOf(TypeWord(s)) == NONE
  {
    if IsBlank(s) {
      SkipGap(s, "");
      assert s + "" == s;
    }
  }

  // ----- the language -----------------------------------------------------

  /** The line spells the message: its type's word, then its arguments as words. */
  ghost predicate Says(s: string, m: Content) {
    exists p: Spelling, gaps: seq<string>, trail: string ::
      && IsSpelling(p) && Written(p) == s && IsCalled(m.kind, p.name)
      && IsText(gaps, m.args, trail) && Spelled(gaps, m.args, trail) == p.text
  }

  lemma SaidIsDecoded(s: string, m: Content, prior: Content)
    requires Says(s, m) && |s| <= MAX_ENCODED_LEN && m.kind != FAILED && m.kind != ERROR
    ensures DecodeInto(s, prior) == (if IsProper(m) then Done else Invalid(NotValid), m)
  {
    var p: Spelling, gaps: seq<string>, trail: string :|
      && IsSpelling(p) && Written(p) == s && IsCalled(m.kind, p.name)
      && IsText(gaps, m.args, trail) && Spelled(gaps, m.args, trail) == p.text;
    DecodesWords(p, m.kind, gaps, m.args, trail, prior);
  }

  /** `decode` yields a message if and only if the line says it, is not too long, and
      the message is proper. */
  lemma {:induction false} DecodesExactly(s: string, m: Content, prior: Content)
    requires m.kind != NONE && m.kind != FAILED && m.kind != ERROR
    ensures DecodeInto(s, prior) == (Done, m) <==> |s| <= MAX_ENCODED_LEN && Says(s, m) && IsProper(m)
  {
    if DecodeInto(s, prior) == (Done, m) {
      DoneIsLine(KindOf(TypeWord(s)), s, prior);
      BlankHasNoType(s);
      var p := EveryLineIsWritten(s);
      PartsOfWritten(p);
      CallsAre(m.kind, p.name);
      var gaps, trail := EveryTextSpells(p.text);
      DecodesWords(p, m.kind, gaps, Words(p.text), trail, prior);
    } else if |s| <= MAX_ENCODED_LEN && Says(s, m) {
      SaidIsDecoded(s, m, prior);
    }
  }

  lemma DoneIsLine(k: MessageType, s: string, prior: Content)
    requires DecodeAs(k, s, prior).0 == Done
    ensures |s| <= MAX_ENCODED_LEN && s != "" && s[|s| - 1] == '\n'
    ensures k != NONE && DecodeAs(k, s, prior).1.kind == k
  {
  }

  /** The first word of the line is none of the eighteen, or there is none. */
  ghost predicate HasNoType(s: string) {
    forall p: Spelling, k: MessageType :: IsSpelling(p) && Written(p) == s ==> !IsCalled(k, p.name)
  }

  /** What is refused before the arguments are looked at: length first, then the
      newline, then the type. */
  lemma {:induction false} RefusesExactly(s: string, prior: Content)
    ensures DecodeInto(s, prior) == (Invalid(TooLong), prior) <==> |s| > MAX_ENCODED_LEN
    ensures DecodeInto(s, prior) == (Invalid(NoNewline), prior) <==>
              |s| <= MAX_ENCODED_LEN && (s == "" || s[|s| - 1] != '\n')
    ensures DecodeInto(s, prior) == (Invalid(NoType), prior) <==>
              |s| <= MAX_ENCODED_LEN && s != "" && s[|s| - 1] == '\n' && HasNoType(s)
  {
    OutcomesAre(KindOf(TypeWord(s)), s, prior);
    if |s| <= MAX_ENCODED_LEN && s != "" && s[|s| - 1] == '\n' {
      NoTypeExactly(s);
    }
  }

  lemma OutcomesAre(k: MessageType, s: string, prior: Content)
    ensures DecodeAs(k, s, prior) == (Invalid(TooLong), prior) <==> |s| > MAX_ENCODED_LEN
    ensures DecodeAs(k, s, prior) == (Invalid(NoNewline), prior) <==> |s| <= MAX_ENCODED_LEN && (s == "" || s[|s| - 1] != '\n')
    ensures DecodeAs(k, s, prior) == (Invalid(NoType), prior) <==>
              |s| <= MAX_ENCODED_LEN && s != "" && s[|s| - 1] == '\n' && k == NONE
  {
    AssembledOutcome(k, TextAfterType(s));
  }

  lemma AssembledOutcome(k: MessageType, text: string)
    ensures var o := Assemble(k, text).0; o == Done || o == Escapes || o == Invalid(NoQuotation) || o == Invalid(NotValid)
  {
  }

  lemma {:induction false} NoTypeExactly(s: string)
    requires s != "" && s[|s| - 1] == '\n'
    ensures KindOf(TypeWord(s)) == NONE <==> HasNoType(s)
  {
    forall p: Spelling, k: MessageType | IsSpelling(p) && Written(p) == s
      ensures IsCalled(k, p.name) ==> KindOf(TypeWord(s)) == k != NONE
    {
      PartsOfWritten(p);
      CallsAre(k, p.name);
    }
    if KindOf(TypeWord(s)) != NONE {
      BlankHasNoType(s);
      var p := EveryLineIsWritten(s);
      PartsOfWritten(p);
      CallsAre(KindOf(p.name), p.name);
    }
  }

  /** What `encode` writes: the word for the type, and one blank before each argument. */
  lemma {:induction false} LineIsWritten(m: Content, w: string)
    requires IsCalled(m.kind, w)
    ensures Line(m) == w + Spelled(seq(|m.args|, _ => " "), m.args, "") + "\n"
    ensures AllWords(m.args) ==> Says(Line(m), m)
  {
    var gaps := seq(|m.args|, _ => " ");
    CallsAre(m.kind, w);
    SpreadIsSpelled(gaps, m.args);
    if AllWords(m.args) {
      var p := Spelling("", w, Spread(m.args), "");
      SpreadHasNoNewline(m.args);
      assert Written(p) == Line(m);
      assert IsText(gaps, m.args, "");
      KeywordNames(m.kind);
      SpelledStarts(gaps, m.args, "");
    }
  }

  lemma {:induction false} SpreadIsSpelled(gaps: seq<string>, args: seq<string>)
    requires |gaps| == |args| && forall i | 0 <= i < |gaps| :: gaps[i] == " "
    ensures Spread(args) == Spelled(gaps, args, "")
  {
    if args != [] {
      SpreadIsSpelled(gaps[1..], args[1..]);
    }
  }

  // ----- lines as one would type them -------------------------------------

  lemma SaysIt(p: Spelling, gaps: seq<string>, args: seq<string>, trail: string, k: MessageType, s: string)
    requires IsSpelling(p) && Written(p) == s && IsCalled(k, p.name)
    requires IsText(gaps, args, trail) && Spelled(gaps, args, trail) == p.text
    ensures Says(s, Content(k, args))
  {
    assert Content(k, args).args == args;
  }

  lemma PopLine()
    ensures Says("POP\n", Content(POP, []))
  {
    var p := Spelling("", "POP", "", "");
    assert Written(p) == "POP\n";
    SaysIt(p, [], [], "", POP, "POP\n");
  }

  lemma CreateTableLine()
    ensures Says("CREATE t1\n", Content(CREATE, ["t1"])) && IsProper(Content(CREATE, ["t1"]))
  {
    var p := Spelling("", "CREATE", " t1", "");
    assert Written(p) == "CREATE t1\n";
    assert [" "][1..] == [] && ["t1"][1..] == [];
    assert Spelled([" "], ["t1"], "") == " t1";
    SaysIt(p, [" "], ["t1"], "", CREATE, "CREATE t1\n");
  }

  lemma PushLineWithBlanks()
    ensures Says("  PUSH \t5 \n", Content(PUSH, ["5"])) && IsProper(Content(PUSH, ["5"]))
  {
    var p := Spelling("  ", "PUSH", " \t5 ", "");
    assert Written(p) == "  PUSH \t5 \n";
    assert [" \t"][1..] == [] && ["5"][1..] == [];
    assert Spelled([" \t"], ["5"], " ") == " \t5 ";
    SaysIt(p, [" \t"], ["5"], " ", PUSH, "  PUSH \t5 \n");
    assert !IsSpace(["5"][0][0]);
  }
}
