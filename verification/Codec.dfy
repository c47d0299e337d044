/** The wire format (message_serialization.cpp): a printer, a whitespace-tolerant
    parser and a length bound. */
module Codec {
  import opened Text
  import opened Messages

  /** Longest encoded message, newline included. */
  const MAX_ENCODED_LEN := 1024

  /** The texts `InvalidMessage` is thrown with. */
  datatype Complaint = NoType | TooLong | NoNewline | NoQuotation | NotValid

  datatype Outcome = Done | Invalid(why: Complaint) | Escapes

  function Keyword(k: MessageType): (w: string) {
    match k
    case NONE => ""
    case LOGIN => "LOGIN"
    case CREATE => "CREATE"
    case PUSH => "PUSH"
    case POP => "POP"
    case TOP => "TOP"
    case SET => "SET"
    case GET => "GET"
    case ADD => "ADD"
    case SUB => "SUB"
    case MUL => "MUL"
    case DIV => "DIV"
    case BEGIN => "BEGIN"
    case COMMIT => "COMMIT"
    case BYE => "BYE"
    case OK => "OK"
    case FAILED => "FAILED"
    case ERROR => "ERROR"
    case DATA => "DATA"
  }

  /** The type a first word names; NONE when it names none. */
  function KindOf(w: string): (k: MessageType) {
    if w == "BEGIN" then BEGIN
    else if w == "COMMIT" then COMMIT
    else if w == "POP" then POP
    else if w == "TOP" then TOP
    else if w == "ADD" then ADD
    else if w == "SUB" then SUB
    else if w == "MUL" then MUL
    else if w == "DIV" then DIV
    else if w == "BYE" then BYE
    else if w == "OK" then OK
    else if w == "FAILED" then FAILED
    else if w == "ERROR" then ERROR
    else if w == "LOGIN" then LOGIN
    else if w == "CREATE" then CREATE
    else if w == "PUSH" then PUSH
    else if w == "SET" then SET
    else if w == "GET" then GET
    else if w == "DATA" then DATA
    else NONE
  }

  predicate CarriesQuotedText(k: MessageType) {
    k == FAILED || k == ERROR
  }

  // ----- printing ---------------------------------------------------------

  /** The line that encodes `m`. */
  function Line(m: Content): (s: string) {
    Keyword(m.kind) + Spread(m.args) + "\n"
  }

  method Encode(msg: Message, prior: string) returns (o: Outcome, out: string)
    ensures msg.kind == NONE ==> o == Invalid(NoType) && out == prior
    ensures msg.kind != NONE ==> out == Line(msg.Value())
    ensures msg.kind != NONE ==> o == if |out| > MAX_ENCODED_LEN then Invalid(TooLong) else Done
  {
    if msg.kind == NONE {
      return Invalid(NoType), prior;
    }
    out := Keyword(msg.kind);
    var i := 0;
    while i < |msg.args|
      invariant 0 <= i <= |msg.args|
      invariant out == Keyword(msg.kind) + Spread(msg.args[..i])
    {
      SpreadAppend(msg.args[..i], msg.args[i]);
      assert msg.args[..i] + [msg.args[i]] == msg.args[..i + 1];
      out := out + " ";
      out := out + msg.args[i];
      i := i + 1;
    }
    assert msg.args[..i] == msg.args;
    out := out + "\n";
    o := if |out| > MAX_ENCODED_LEN then Invalid(TooLong) else Done;
  }

  // ----- parsing ----------------------------------------------------------

  /** Position of the first quotation mark; |s| when there is none. */
  function FirstQuote(s: string): (i: nat)
    ensures i <= |s|
    ensures i < |s| ==> s[i] == '"'
    ensures forall k | 0 <= k < i :: s[k] != '"'
  {
    if |s| == 0 || s[0] == '"' then 0 else 1 + FirstQuote(s[1..])
  }

  /** Position of the last quotation mark; -1 when there is none. */
  function LastQuote(s: string): (i: int)
    ensures -1 <= i < |s|
    ensures i >= 0 ==> s[i] == '"'
    ensures forall k | i < k < |s| :: s[k] != '"'
  {
    if |s| == 0 then -1
    else if s[|s| - 1] == '"' then |s| - 1
    else LastQuote(s[..|s| - 1])
  }

  /** `substr(open + 1, close - open - 1)`. With a single quotation mark the
      unsigned length wraps around and everything after the mark is taken. */
  function QuotedText(s: string): (t: string)
    requires '"' in s
  {
    var open, close := FirstQuote(s), LastQuote(s);
    assert 0 <= open <= close < |s|;
    if open == close then s[open + 1..] else s[open + 1..close]
  }

  /** The arguments that the text after the type word yields. */
  function ReadArgs(k: MessageType, text: string): (r: (Outcome, seq<string>)) {
    if !CarriesQuotedText(k) then (Done, Words(text))
    else if '"' in text then (Done, [QuotedText(text)])
    else (Invalid(NoQuotation), [])
  }

  function Judge(m: Content): (o: Outcome) {
    match Validity(m)
    case Accepted => Done
    case Rejected => Invalid(NotValid)
    case OutOfRange => Escapes
  }

  /** The end of `decode`, once the type is known: outcome and final content. */
  function Assemble(k: MessageType, text: string): (r: (Outcome, Content)) {
    var (o, args) := ReadArgs(k, text);
    (if o != Done then o else Judge(Content(k, args)), Content(k, args))
  }

  function TypeWord(s: string): string {
    var body := SkipSpaces(s);
    body[..WordLength(body)]
  }

  function TextAfterType(s: string): string {
    var body := SkipSpaces(s);
    FirstLine(body[WordLength(body)..])
  }

  /** What `decode` does with a line, given what the target object held: the
      outcome and the object's content afterwards, also when it throws half way. */
  function DecodeInto(s: string, prior: Content): (r: (Outcome, Content)) {
    DecodeAs(KindOf(TypeWord(s)), s, prior)
  }

  function DecodeAs(k: MessageType, s: string, prior: Content): (r: (Outcome, Content)) {
    if |s| > MAX_ENCODED_LEN then (Invalid(TooLong), prior)
    else if s == "" || s[|s| - 1] != '\n' then (Invalid(NoNewline), prior)
    else if k == NONE then (Invalid(NoType), prior)
    else Assemble(k, TextAfterType(s))
  }

  method ExtractSingleWordArgs(msg: Message, text: string)
    modifies msg`args
    ensures msg.args == old(msg.args) + Words(text)
  {
    var rest := SkipSpaces(text);
    WordsSkipSpaces(text);
    while rest != ""
      invariant rest == SkipSpaces(rest)
      invariant msg.args + Words(rest) == old(msg.args) + Words(text)
      decreases |rest|
    {
      NextWord(rest, msg.args);
      var n := WordLength(rest);
      msg.PushArg(rest[..n]);
      rest := SkipSpaces(rest[n..]);
    }
  }

  lemma {:induction false} NextWord(s: string, before: seq<string>)
    requires s != "" && s == SkipSpaces(s)
    ensures 0 < WordLength(s)
    ensures var r := SkipSpaces(s[WordLength(s)..]);
            && |r| < |s| && r == SkipSpaces(r)
            && (before + [s[..WordLength(s)]]) + Words(r) == before + Words(s)
  {
    assert SpaceLength(s) == 0;
    var n := WordLength(s);
    var w, tail := s[..n], s[n..];
    var r := SkipSpaces(tail);
    WordsSkipSpaces(tail);
    assert Words(s) == [w] + Words(tail) by {
      assert SkipSpaces(s) == s;
    }
    JoinWord(before, w, Words(r), Words(s));
  }

  lemma {:induction false} JoinWord(before: seq<string>, w: string, more: seq<string>, all: seq<string>)
    requires all == [w] + more
    ensures (before + [w]) + more == before + all
  {
  }

  lemma {:induction false} WordsSkipSpaces(s: string)
    ensures SkipSpaces(SkipSpaces(s)) == SkipSpaces(s)
    ensures Words(SkipSpaces(s)) == Words(s)
  {
    assert SpaceLength(SkipSpaces(s)) == 0;
  }

  method ExtractQuotedTextArg(msg: Message, text: string) returns (o: Outcome)
    modifies msg`args
    ensures o == if '"' in text then Done else Invalid(NoQuotation)
    ensures msg.args == if '"' in text then old(msg.args) + [QuotedText(text)] else old(msg.args)
  {
    var open, close := FirstQuote(text), LastQuote(text);
    if open == |text| || close == -1 {
      return Invalid(NoQuotation);
    }
    var taken := if open == close then text[open + 1..] else text[open + 1..close];
    msg.PushArg(taken);
    return Done;
  }

  method DecodeArgs(msg: Message, text: string) returns (o: Outcome)
    modifies msg`args
    ensures (o, msg.Value()) == Assemble(msg.kind, text)
  {
    msg.ClearArgs();
    if CarriesQuotedText(msg.kind) {
      o := ExtractQuotedTextArg(msg, text);
      if o != Done {
        return;
      }
      assert [] + [QuotedText(text)] == [QuotedText(text)];
    } else {
      ExtractSingleWordArgs(msg, text);
      assert [] + Words(text) == Words(text);
    }
    var v := msg.IsValid();
    o := match v case Accepted => Done case Rejected => Invalid(NotValid) case OutOfRange => Escapes;
  }

  method Decode(s: string, msg: Message) returns (o: Outcome)
    modifies msg
    ensures (o, msg.Value()) == DecodeInto(s, old(msg.Value()))
  {
    if |s| > MAX_ENCODED_LEN {
      return Invalid(TooLong);
    }
    if s == "" || s[|s| - 1] != '\n' {
      return Invalid(NoNewline);
    }
    var kind := KindOf(TypeWord(s));
    if kind == NONE {
      return Invalid(NoType);
    }
    msg.SetMessageType(kind);
    o := DecodeArgs(msg, TextAfterType(s));
  }

  // ----- keywords ---------------------------------------------------------

  predicate IsNamed(k: MessageType) {
    KindOf(Keyword(k)) == k && IsWord(Keyword(k)) && 2 <= |Keyword(k)| <= 6
  }

  lemma KeywordNames(k: MessageType)
    ensures KindOf(Keyword(k)) == k
    ensures k != NONE ==> IsWord(Keyword(k))
    ensures 2 <= |Keyword(k)| <= 6 || k == NONE
  {
    if TakesNothing(k) {
      BareKeywordNames(k);
    } else if k != NONE {
      OtherKeywordNames(k);
    }
  }

  lemma BareKeywordNames(k: MessageType)
    requires TakesNothing(k)
    ensures IsNamed(k)
  {
    match k
    case POP => case TOP => case ADD => case MUL => case SUB => case DIV =>
    case BEGIN => case COMMIT => case BYE =>
  }

  lemma OtherKeywordNames(k: MessageType)
    requires !TakesNothing(k) && k != NONE
    ensures IsNamed(k)
  {
    match k
    case LOGIN => case CREATE => case PUSH => case SET => case GET =>
    case OK => case FAILED => case ERROR => case DATA =>
  }

  lemma {:induction false} KindIsNamed(w: string)
    ensures KindOf(w) != NONE ==> Keyword(KindOf(w)) == w
  {
  }

  // ----- theorems ---------------------------------------------------------

  /** A word at the front of a line is found, and the first line of what
      follows it is what is parsed. */
  lemma {:induction false} SplitAtWord(w: string, rest: string)
    requires IsWord(w)
    requires rest != "" && IsSpace(rest[0])
    ensures TypeWord(w + rest) == w
    ensures TextAfterType(w + rest) == FirstLine(rest)
  {
    var s := w + rest;
    assert s[0] == w[0];
    assert SpaceLength(s) == 0;
    assert s[0..] == s;
    WordLengthOfWord(w, rest);
    assert s[..|w|] == w;
    assert s[|w|..] == rest;
  }

  lemma {:induction false} DecodeKeyword(k: MessageType, text: string, prior: Content)
    requires k != NONE
    requires text == "" || IsSpace(text[0])
    requires |Keyword(k) + text + "\n"| <= MAX_ENCODED_LEN
    ensures DecodeInto(Keyword(k) + text + "\n", prior) == Assemble(k, FirstLine(text + "\n"))
  {
    var rest := text + "\n";
    assert Keyword(k) + text + "\n" == Keyword(k) + rest;
    KeywordNames(k);
    SplitAtWord(Keyword(k), rest);
    DecodeRest(k, Keyword(k), rest, prior);
  }

  lemma {:induction false} DecodeRest(k: MessageType, w: string, rest: string, prior: Content)
    requires k != NONE
    requires rest != "" && rest[|rest| - 1] == '\n'
    requires |w + rest| <= MAX_ENCODED_LEN
    ensures DecodeAs(k, w + rest, prior) == Assemble(k, TextAfterType(w + rest))
  {
    var s := w + rest;
    assert s != "" && s[|s| - 1] == '\n';
    DecodeProperLine(k, s, prior, TextAfterType(s));
  }

  lemma {:induction false} DecodeProperLine(k: MessageType, s: string, prior: Content, text: string)
    requires k != NONE && s != "" && s[|s| - 1] == '\n' && |s| <= MAX_ENCODED_LEN && text == TextAfterType(s)
    ensures DecodeAs(k, s, prior) == Assemble(k, text)
  {
  }

  /** Decoding undoes encoding, whatever the target object held before. */
  lemma {:induction false} RoundTrip(m: Content, prior: Content)
    requires m.kind != NONE && !CarriesQuotedText(m.kind)
    requires AllWords(m.args) && Conforms(m)
    requires |Line(m)| <= MAX_ENCODED_LEN
    ensures DecodeInto(Line(m), prior) == (Done, m)
  {
    SpreadHasNoNewline(m.args);
    DecodeKeyword(m.kind, Spread(m.args), prior);
    FirstLineOfPrefix(Spread(m.args), "\n");
    WordsOfSpread(m.args);
  }

  /** What is left of a line after its type word: it starts with whitespace,
      and type word, text and newline together are no longer than the line. */
  lemma {:induction false} PartsOfLine(s: string)
    requires s != "" && s[|s| - 1] == '\n' && TypeWord(s) != ""
    ensures var text := TextAfterType(s);
            && (text == "" || IsSpace(text[0]))
            && |TypeWord(s)| + |text| + 1 <= |s|
  {
    var body := SkipSpaces(s);
    var n := WordLength(body);
    assert body[|body| - 1] == '\n';
    var tail := body[n..];
    assert n < |body|;
    assert tail[|tail| - 1] == '\n';
  }

  /** A message that was decoded has arguments that are words and re-encodes
      to a line no longer than the one it came from. */
  lemma {:induction false} DecodedIsShort(s: string, prior: Content)
    requires DecodeInto(s, prior).0 == Done
    requires !CarriesQuotedText(DecodeInto(s, prior).1.kind)
    ensures var m := DecodeInto(s, prior).1;
            && m.kind != NONE && AllWords(m.args) && Conforms(m)
            && |Line(m)| <= |s| <= MAX_ENCODED_LEN
  {
    KindIsNamed(TypeWord(s));
    var text := TextAfterType(s);
    PartsOfLine(s);
    WordsAreWords(text);
    SpreadOfWordsIsShort(text);
  }

  /** Re-encoding a decoded message is never rejected, decodes to the same
      message into any object, and is a fixed point of re-encoding. */
  lemma {:induction false} Normalisation(s: string, prior: Content, other: Content)
    requires DecodeInto(s, prior).0 == Done
    requires !CarriesQuotedText(DecodeInto(s, prior).1.kind)
    ensures var m := DecodeInto(s, prior).1;
            && |Line(m)| <= |s|
            && DecodeInto(Line(m), other) == (Done, m)
            && Line(DecodeInto(Line(m), other).1) == Line(m)
  {
    DecodedIsShort(s, prior);
    RoundTrip(DecodeInto(s, prior).1, other);
  }

  /** The prior content of the target never influences a successful decode,
      and never decides whether decoding succeeds. */
  lemma {:induction false} PriorIsIrrelevant(s: string, p: Content, q: Content)
    ensures DecodeInto(s, p).0 == DecodeInto(s, q).0
    ensures DecodeInto(s, p).0 == Done ==> DecodeInto(s, p).1 == DecodeInto(s, q).1
  {
  }

  /** `at(0)` is never reached with an empty identifier from inside `decode`. */
  lemma {:induction false} DecodeNeverEscapes(s: string, prior: Content)
    ensures DecodeInto(s, prior).0 != Escapes
  {
    AssembleNeverEscapes(KindOf(TypeWord(s)), TextAfterType(s));
  }

  lemma {:induction false} AssembleNeverEscapes(k: MessageType, text: string)
    ensures Assemble(k, text).0 != Escapes
  {
    if !CarriesQuotedText(k) {
      WordsAreWords(text);
      WordsNeverEscape(Content(k, Words(text)));
    }
  }

  lemma {:induction false} WordsNeverEscape(m: Content)
    requires AllWords(m.args)
    ensures Judge(m) != Escapes
  {
    assert forall i | 0 <= i < |m.args| :: IsWord(m.args[i]);
  }

  // ----- quoted text ------------------------------------------------------

  /** A FAILED or ERROR line carrying `t` in quotation marks. */
  function QuotedLine(k: MessageType, t: string): string {
    Keyword(k) + (" \"" + t + "\"") + "\n"
  }

  lemma {:induction false} FirstQuoteAt(a: string, b: string)
    requires '"' !in a && b != "" && b[0] == '"'
    ensures FirstQuote(a + b) == |a|
  {
    if a == "" {
      assert a + b == b;
    } else {
      assert (a + b)[1..] == a[1..] + b;
      FirstQuoteAt(a[1..], b);
    }
  }

  /** Quoted text survives, even when it contains quotation marks itself. */
  lemma {:induction false} QuotedTextSurvives(k: MessageType, t: string, prior: Content)
    requires CarriesQuotedText(k) && '\n' !in t
    requires |QuotedLine(k, t)| <= MAX_ENCODED_LEN
    ensures DecodeInto(QuotedLine(k, t), prior) == (Done, Content(k, [t]))
  {
    var text := " \"" + t + "\"";
    assert '\n' !in text;
    FirstLineOfPrefix(text, "\n");
    QuotedTextOf(t);
    QuotedAssemble(k, text, t);
    DecodeKeyword(k, text, prior);
  }

  lemma QuotedAssemble(k: MessageType, text: string, t: string)
    requires CarriesQuotedText(k) && '"' in text && QuotedText(text) == t
    ensures Assemble(k, text) == (Done, Content(k, [t]))
  {
  }

  lemma {:induction false} QuotedTextOf(t: string)
    ensures '"' in " \"" + t + "\"" && QuotedText(" \"" + t + "\"") == t
  {
    var text := " \"" + t + "\"";
    assert text[1] == '"';
    assert text == " " + ("\"" + t + "\"");
    FirstQuoteAt(" ", "\"" + t + "\"");
    assert LastQuote(text) == |text| - 1;
    assert text[2..|text| - 1] == t;
  }

  /** `encode` writes no quotation marks, so decoding an encoded FAILED or ERROR
      message throws unless its own text brings one along on the first line. */
  lemma {:induction false} UnquotedIsRejected(m: Content, prior: Content)
    requires CarriesQuotedText(m.kind)
    requires |Line(m)| <= MAX_ENCODED_LEN
    ensures DecodeInto(Line(m), prior).0 == Done <==> '"' in FirstLine(Spread(m.args) + "\n")
    ensures (forall i | 0 <= i < |m.args| :: '"' !in m.args[i]) ==>
              DecodeInto(Line(m), prior) == (Invalid(NoQuotation), Content(m.kind, []))
  {
    var text := FirstLine(Spread(m.args) + "\n");
    DecodeKeyword(m.kind, Spread(m.args), prior);
    UnquotedAssemble(m.kind, text);
    if forall i | 0 <= i < |m.args| :: '"' !in m.args[i] {
      SpreadHasNoQuote(m.args);
      assert '"' !in text;
    }
  }

  /** No encoded FAILED or ERROR message ever comes back, even where decoding
      succeeds: what stands before the first quotation mark is lost. */
  lemma {:induction false} QuotedNeverComesBack(m: Content, prior: Content)
    requires CarriesQuotedText(m.kind)
    requires |Line(m)| <= MAX_ENCODED_LEN
    ensures DecodeInto(Line(m), prior) != (Done, m)
  {
    DecodeKeyword(m.kind, Spread(m.args), prior);
    AssembleIsShorter(m, FirstLine(Spread(m.args) + "\n"));
  }

  lemma {:induction false} AssembleIsShorter(m: Content, text: string)
    requires CarriesQuotedText(m.kind) && text == FirstLine(Spread(m.args) + "\n")
    ensures Assemble(m.kind, text) != (Done, m)
  {
    if '"' in text && |m.args| == 1 {
      assert m.args[1..] == [];
      assert Spread(m.args) == " " + m.args[0];
      assert text[0] == ' ';
      LeadingBlankIsLost(text);
      assert |QuotedText(text)| < |m.args[0]|;
    }
  }

  lemma {:induction false} LeadingBlankIsLost(text: string)
    requires '"' in text && text[0] != '"'
    ensures |QuotedText(text)| + 2 <= |text|
  {
  }

  lemma {:induction false} UnquotedAssemble(k: MessageType, text: string)
    requires CarriesQuotedText(k)
    ensures Assemble(k, text).0 == Done <==> '"' in text
    ensures '"' !in text ==> Assemble(k, text) == (Invalid(NoQuotation), Content(k, []))
  {
  }

  lemma {:induction false} SpreadHasNoQuote(args: seq<string>)
    requires forall i | 0 <= i < |args| :: '"' !in args[i]
    ensures '"' !in Spread(args)
  {
    if args != [] {
      SpreadHasNoQuote(args[1..]);
    }
  }
}
