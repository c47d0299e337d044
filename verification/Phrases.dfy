/** The texts of the server's exceptions, as FAILED and ERROR replies carry them.
    Longer texts are put together from pieces, because the verifier does not look
    far into a string literal. */
module Phrases {
  import opened Codec
  import opened Engine
  import opened StackMachine

  predicate IsPlainChar(c: char) {
    c != '\n' && c != '"' && c != '\0'
  }

  predicate AllPlain(text: string) {
    forall i | 0 <= i < |text| :: IsPlainChar(text[i])
  }

  /** Short, and without newline, quotation mark and NUL. */
  predicate IsPlain(text: string) {
    0 < |text| <= 90 && AllPlain(text)
  }

  function Compose(a: string, b: string, c: string): (t: string)
    ensures |t| == |a| + |b| + |c|
    ensures AllPlain(a) && AllPlain(b) && AllPlain(c) ==> AllPlain(t)
  {
    a + b + c
  }

  // ----- refused requests on the stack ------------------------------------

  function EmptyStackPhrase(request: string): string {
    Compose("Tried to call ", request, Compose(" on an empty ", "operations stack.", ""))
  }

  function Verb(op: ArithOp): string {
    match op case Add => "add" case Sub => "subtract" case Mul => "multiply" case Div => "divide"
  }

  function OperandStart(): string {
    Compose("There are not ", "enough operands ", "to ")
  }

  function OperandPhrase(op: ArithOp): string {
    Compose(OperandStart(), Verb(op), " with.")
  }

  function IntegerPhrase(): string {
    Compose("Value on stack could ", "not be converted to ", "an integer.")
  }

  function StackPhrase(r: Refusal): string {
    match r
    case NothingToPop => EmptyStackPhrase("POP")
    case NothingOnTop => EmptyStackPhrase("TOP")
    case NotAnInteger => IntegerPhrase()
    case TooFewOperands(op) => OperandPhrase(op)
  }

  lemma EmptyStackPhraseIsPlain(request: string)
    requires |request| <= 3 && AllPlain(request)
    ensures IsPlain(EmptyStackPhrase(request))
  {
  }

  lemma OperandPhraseIsPlain(op: ArithOp)
    ensures IsPlain(OperandPhrase(op))
  {
    OperandStartIsPlain();
    VerbIsPlain(op);
  }

  lemma OperandStartIsPlain()
    ensures |OperandStart()| <= 40 && AllPlain(OperandStart())
  {
  }

  lemma VerbIsPlain(op: ArithOp)
    ensures |Verb(op)| <= 8 && AllPlain(Verb(op))
  {
  }

  lemma IntegerPhraseIsPlain()
    ensures IsPlain(IntegerPhrase())
  {
  }

  lemma StackPhraseIsPlain(r: Refusal)
    ensures IsPlain(StackPhrase(r))
  {
    match r
    case NothingToPop => EmptyStackPhraseIsPlain("POP");
    case NothingOnTop => EmptyStackPhraseIsPlain("TOP");
    case NotAnInteger => IntegerPhraseIsPlain();
    case TooFewOperands(op) => OperandPhraseIsPlain(op);
  }

  // ----- lines that do not decode -----------------------------------------

  function QuotationStart(): string {
    Compose("Message whose type ", "requires a quoted ", "text argument does ")
  }

  function QuotationPhrase(): string {
    Compose(QuotationStart(), "not contain a ", "quotation.")
  }

  function LinePhrase(c: Complaint): string {
    match c
    case NoType => Compose("Message must ", "have a type.", "")
    case TooLong => Compose("Message is ", "too long.", "")
    case NoNewline => Compose("Encoded message is ", "missing a newline.", "")
    case NoQuotation => QuotationPhrase()
    case NotValid => Compose("Message is ", "not valid.", "")
  }

  lemma QuotationStartIsPlain()
    ensures |QuotationStart()| <= 60 && AllPlain(QuotationStart())
  {
  }

  lemma QuotationPhraseIsPlain()
    ensures IsPlain(QuotationPhrase())
  {
    QuotationStartIsPlain();
  }

  lemma NoTypeIsPlain() ensures IsPlain(LinePhrase(NoType)) { }
  lemma TooLongIsPlain() ensures IsPlain(LinePhrase(TooLong)) { }
  lemma NoNewlineIsPlain() ensures IsPlain(LinePhrase(NoNewline)) { }
  lemma NotValidIsPlain() ensures IsPlain(LinePhrase(NotValid)) { }

  lemma LinePhraseIsPlain(c: Complaint)
    ensures IsPlain(LinePhrase(c))
  {
    match c
    case NoQuotation => QuotationPhraseIsPlain();
    case NoType => NoTypeIsPlain();
    case TooLong => TooLongIsPlain();
    case NoNewline => NoNewlineIsPlain();
    case NotValid => NotValidIsPlain();
  }

  // ----- tables, transactions, sessions -----------------------------------

  predicate AboutTables(r: Reason) {
    r == NoValueOnStack || r == TableNotFound || r == KeyNotFound || r == TableBusy || r == TableExists
  }

  function TablePhrase(r: Reason): string
    requires AboutTables(r)
  {
    match r
    case NoValueOnStack => Compose("No value ", "on stack.", "")
    case TableNotFound => Compose("Could not ", "find table.", "")
    case KeyNotFound => Compose("Could not find key ", "in specified table.", "")
    case TableBusy => Compose("Could not gain ", "access to table.", "")
    case TableExists => Compose("A table with this ", "name already exists.", "")
  }

  predicate AboutSession(r: Reason) {
    r == NestedTransaction || r == NoTransaction || r == NotARequest || r == NotLoggedIn
  }

  function SessionPhrase(r: Reason): string
    requires AboutSession(r)
  {
    match r
    case NestedTransaction => Compose("Nested transactions ", "are not supported.", "")
    case NoTransaction => Compose("Transaction is ", "not ongoing.", "")
    case NotARequest => Compose("Please only enter ", "standardized ", "requests.")
    case NotLoggedIn => Compose("Please log in ", "first.", "")
  }

  lemma NoValueOnStackIsPlain() ensures IsPlain(TablePhrase(NoValueOnStack)) { }
  lemma TableNotFoundIsPlain() ensures IsPlain(TablePhrase(TableNotFound)) { }
  lemma KeyNotFoundIsPlain() ensures IsPlain(TablePhrase(KeyNotFound)) { }
  lemma TableBusyIsPlain() ensures IsPlain(TablePhrase(TableBusy)) { }
  lemma TableExistsIsPlain() ensures IsPlain(TablePhrase(TableExists)) { }
  lemma NestedTransactionIsPlain() ensures IsPlain(SessionPhrase(NestedTransaction)) { }
  lemma NoTransactionIsPlain() ensures IsPlain(SessionPhrase(NoTransaction)) { }
  lemma NotARequestIsPlain() ensures IsPlain(SessionPhrase(NotARequest)) { }
  lemma NotLoggedInIsPlain() ensures IsPlain(SessionPhrase(NotLoggedIn)) { }

  lemma TablePhraseIsPlain(r: Reason)
    requires AboutTables(r)
    ensures IsPlain(TablePhrase(r))
  {
    match r
    case NoValueOnStack => NoValueOnStackIsPlain();
    case TableNotFound => TableNotFoundIsPlain();
    case KeyNotFound => KeyNotFoundIsPlain();
    case TableBusy => TableBusyIsPlain();
    case TableExists => TableExistsIsPlain();
  }

  lemma SessionPhraseIsPlain(r: Reason)
    requires AboutSession(r)
    ensures IsPlain(SessionPhrase(r))
  {
    match r
    case NestedTransaction => NestedTransactionIsPlain();
    case NoTransaction => NoTransactionIsPlain();
    case NotARequest => NotARequestIsPlain();
    case NotLoggedIn => NotLoggedInIsPlain();
  }

  function Phrase(r: Reason): string {
    if r.OnStack? then StackPhrase(r.refusal)
    else if r.BadLine? then LinePhrase(r.why)
    else if AboutTables(r) then TablePhrase(r)
    else SessionPhrase(r)
  }

  lemma PhraseIsPlain(r: Reason)
    ensures IsPlain(Phrase(r))
  {
    if r.OnStack? {
      StackPhraseIsPlain(r.refusal);
    } else if r.BadLine? {
      LinePhraseIsPlain(r.why);
    } else if AboutTables(r) {
      TablePhraseIsPlain(r);
    } else {
      SessionPhraseIsPlain(r);
    }
  }

  // ----- the texts in full ------------------------------------------------

  lemma PopText() ensures StackPhrase(NothingToPop) == "Tried to call POP on an empty operations stack." { }
  lemma TopText() ensures StackPhrase(NothingOnTop) == "Tried to call TOP on an empty operations stack." { }
  lemma AddText() ensures OperandPhrase(Add) == "There are not enough operands to add with." { }
  lemma SubtractText() ensures OperandPhrase(Sub) == "There are not enough operands to subtract with." { }
  lemma MultiplyText() ensures OperandPhrase(Mul) == "There are not enough operands to multiply with." { }
  lemma DivideText() ensures OperandPhrase(Div) == "There are not enough operands to divide with." { }
  lemma NotAnIntegerText() ensures StackPhrase(NotAnInteger) == "Value on stack could not be converted to an integer." { }
  lemma NoTypeText() ensures LinePhrase(NoType) == "Message must have a type." { }
  lemma TooLongText() ensures LinePhrase(TooLong) == "Message is too long." { }
  lemma NoNewlineText() ensures LinePhrase(NoNewline) == "Encoded message is missing a newline." { }
  lemma NotValidText() ensures LinePhrase(NotValid) == "Message is not valid." { }
  lemma NoValueOnStackText() ensures TablePhrase(NoValueOnStack) == "No value on stack." { }
  lemma TableNotFoundText() ensures TablePhrase(TableNotFound) == "Could not find table." { }
  lemma KeyNotFoundText() ensures TablePhrase(KeyNotFound) == "Could not find key in specified table." { }
  lemma TableBusyText() ensures TablePhrase(TableBusy) == "Could not gain access to table." { }
  lemma TableExistsText() ensures TablePhrase(TableExists) == "A table with this name already exists." { }
  lemma NestedText() ensures SessionPhrase(NestedTransaction) == "Nested transactions are not supported." { }
  lemma NoTransactionText() ensures SessionPhrase(NoTransaction) == "Transaction is not ongoing." { }
  lemma NotARequestText() ensures SessionPhrase(NotARequest) == "Please only enter standardized requests." { }
  lemma NotLoggedInText() ensures SessionPhrase(NotLoggedIn) == "Please log in first." { }

  const QUOTATION_START := "Message whose type requires a quoted text argument does "

  lemma QuotationText()
    ensures QuotationPhrase() == QUOTATION_START + "not contain a quotation."
  {
    QuotationStartText();
    assert "not contain a " + "quotation." == "not contain a quotation.";
  }

  lemma QuotationStartText()
    ensures QuotationStart() == QUOTATION_START
  {
  }
}
