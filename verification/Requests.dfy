/** What the server makes of well-formed request lines. */
module Requests {
  import opened Codec
  import opened Engine
  import opened Messages
  import opened Text
  import opened Values

  lemma IdentifierIsPlain(w: string)
    requires IsIdentifier(w)
    ensures IsWord(w) && '\0' !in w
  {
    assert forall i | 0 <= i < |w| :: IsIdentifierChar(w[i]);
  }

  /** Requests without arguments, among others those of the stack machine. */
  lemma BareParses(k: MessageType)
    requires TakesNothing(k)
    ensures Parse(Line(Content(k, []))) == Good(Content(k, []))
  {
    assert '\0' !in Line(Content(k, []));
    ParseOfLine(Content(k, []));
  }

  lemma OneArgumentLine(k: MessageType, w: string)
    requires '\0' !in w
    ensures |Line(Content(k, [w]))| == |Keyword(k)| + |w| + 2
    ensures '\0' !in Line(Content(k, [w]))
  {
    assert [w][1..] == [];
    assert Spread([w]) == " " + w;
    assert '\0' !in Keyword(k);
  }

  function PushLine(w: string): string {
    Line(Content(PUSH, [w]))
  }

  lemma PushParses(w: string)
    requires IsValue(w)
    ensures Parse(PushLine(w)) == Good(Content(PUSH, [w]))
  {
    OneArgumentLine(PUSH, w);
    assert !IsSpace(w[0]);
    ParseOfLine(Content(PUSH, [w]));
  }

  /** LOGIN with a user name, CREATE with a table name. */
  lemma NameParses(k: MessageType, w: string)
    requires (k == LOGIN || k == CREATE) && IsIdentifier(w) && |Line(Content(k, [w]))| <= MAX_ENCODED_LEN
    ensures Parse(Line(Content(k, [w]))) == Good(Content(k, [w]))
  {
    IdentifierIsPlain(w);
    OneArgumentLine(k, w);
    ParseOfLine(Content(k, [w]));
  }
}
