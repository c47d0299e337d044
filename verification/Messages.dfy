/** Protocol messages and their validity (message.cpp). */
module Messages {
  import opened Text

  datatype MessageType =
    | NONE
    | LOGIN | CREATE | PUSH | POP | TOP | SET | GET | ADD | SUB | MUL | DIV | BEGIN | COMMIT | BYE
    | OK | FAILED | ERROR | DATA

  /** The value of a message object. */
  datatype Content = Content(kind: MessageType, args: seq<string>)

  /** `is_valid` answers, except that `std::string::at` throws on an empty identifier. */
  datatype Verdict = Accepted | Rejected | OutOfRange

  predicate IsLetter(c: char) {
    'A' <= c <= 'Z' || 'a' <= c <= 'z'
  }

  predicate IsIdentifierChar(c: char) {
    IsLetter(c) || '0' <= c <= '9' || c == '_'
  }

  predicate IsIdentifier(s: string) {
    |s| > 0 && IsLetter(s[0]) && forall i | 1 <= i < |s| :: IsIdentifierChar(s[i])
  }

  predicate TakesNothing(k: MessageType) {
    k in {POP, TOP, ADD, MUL, SUB, DIV, BEGIN, COMMIT, BYE}
  }

  predicate TakesOne(k: MessageType) {
    k in {LOGIN, CREATE, PUSH, DATA}
  }

  predicate TakesTwo(k: MessageType) {
    k in {SET, GET}
  }

  predicate TakesIdentifiers(k: MessageType) {
    k in {LOGIN, CREATE, SET, GET}
  }

  predicate ArityFits(m: Content) {
    && (TakesNothing(m.kind) ==> |m.args| == 0)
    && (TakesOne(m.kind) ==> |m.args| == 1)
    && (TakesTwo(m.kind) ==> |m.args| == 2)
  }

  predicate IsBlank(s: string) {
    forall i | 0 <= i < |s| :: IsSpace(s[i])
  }

  /** The network protocol: arity, identifiers where a name is expected, and a
      PUSH value that is not blank. Nothing is asked of OK, FAILED, ERROR. */
  predicate Conforms(m: Content) {
    && ArityFits(m)
    && (TakesIdentifiers(m.kind) ==> forall i | 0 <= i < |m.args| :: IsIdentifier(m.args[i]))
    && (m.kind == PUSH ==> !IsBlank(m.args[0]))
  }

  /** The check runs into an empty identifier before it can reject. */
  predicate ReachesEmptyIdentifier(m: Content) {
    && ArityFits(m)
    && TakesIdentifiers(m.kind)
    && (m.args[0] == "" || (|m.args| == 2 && IsIdentifier(m.args[0]) && m.args[1] == ""))
  }

  function Validity(m: Content): (v: Verdict) {
    if Conforms(m) then Accepted
    else if ReachesEmptyIdentifier(m) then OutOfRange
    else Rejected
  }

  method IsValidIdentifier(arg: string) returns (v: Verdict)
    ensures v == OutOfRange <==> arg == ""
    ensures v == Accepted <==> IsIdentifier(arg)
  {
    if |arg| == 0 {
      return OutOfRange;
    }
    if !IsLetter(arg[0]) {
      return Rejected;
    }
    var i := 1;
    while i < |arg|
      invariant 1 <= i <= |arg|
      invariant forall k | 1 <= k < i :: IsIdentifierChar(arg[k])
    {
      if !IsIdentifierChar(arg[i]) {
        return Rejected;
      }
      i := i + 1;
    }
    return Accepted;
  }

  method AllSpace(s: string) returns (blank: bool)
    ensures blank <==> IsBlank(s)
  {
    var i := 0;
    while i < |s|
      invariant 0 <= i <= |s|
      invariant forall k | 0 <= k < i :: IsSpace(s[k])
    {
      if !IsSpace(s[i]) {
        return false;
      }
      i := i + 1;
    }
    return true;
  }

  class Message {
    var kind: MessageType
    var args: seq<string>

    function Value(): Content
      reads this
    {
      Content(kind, args)
    }

    constructor ()
      ensures Value() == Content(NONE, [])
    {
      kind, args := NONE, [];
    }

    constructor Of(m: Content)
      ensures Value() == m
    {
      kind, args := m.kind, m.args;
    }

    /** `operator=`: copies every argument of `rhs`, also when `rhs` is this very object. */
    method Assign(rhs: Message)
      modifies this
      ensures Value() == old(rhs.Value())
    {
      kind := rhs.kind;
      var copied: seq<string> := [];
      while |copied| < |rhs.args|
        invariant kind == rhs.kind == old(rhs.kind) && args == old(args) && rhs.args == old(rhs.args)
        invariant |copied| <= |rhs.args| && copied == rhs.args[..|copied|]
      {
        copied := copied + [rhs.args[|copied|]];
      }
      args := copied;
    }

    method SetMessageType(k: MessageType)
      modifies this`kind
      ensures kind == k
    {
      kind := k;
    }

    method PushArg(arg: string)
      modifies this`args
      ensures args == old(args) + [arg]
    {
      args := args + [arg];
    }

    method ClearArgs()
      modifies this`args
      ensures args == []
    {
      args := [];
    }

    /** Branch by branch as in the original, against the protocol's own definition. */
    method IsValid() returns (v: Verdict)
      ensures v == Validity(Value())
      ensures v == OutOfRange <==>
                || ((kind == LOGIN || kind == CREATE) && args == [""])
                || ((kind == SET || kind == GET) && |args| == 2 && (args[0] == "" || (IsIdentifier(args[0]) && args[1] == "")))
    {
      if TakesNothing(kind) && |args| != 0 {
        return Rejected;
      } else if TakesOne(kind) && |args| != 1 {
        return Rejected;
      } else if TakesTwo(kind) && |args| != 2 {
        return Rejected;
      } else if TakesIdentifiers(kind) {
        v := IsValidIdentifier(args[0]);
        if v == Accepted && TakesTwo(kind) {
          v := IsValidIdentifier(args[1]);
        }
      } else if kind == PUSH {
        var blank := AllSpace(args[0]);
        v := if blank then Rejected else Accepted;
      } else {
        v := Accepted;
      }
    }
  }
}
