/** Replies on the wire: what a session sends, and what its client makes of it. */
module Replies {
  import opened Codec
  import opened Engine
  import opened Messages
  import opened Phrases
  import opened Requests
  import opened Rio
  import opened Sessions
  import opened StackMachine
  import opened Tables
  import opened Text
  import opened Values
  import opened Wrappers

  function ReplyMessage(r: Reply): Content {
    match r
    case Okay => Content(OK, [])
    case Datum(v) => Content(DATA, [v])
    case Failed(why) => Content(FAILED, [Phrase(why)])
    case Error(why) => Content(ERROR, [Phrase(why)])
  }

  function ReplyLine(r: Reply): string {
    Line(ReplyMessage(r))
  }

  function ReplyLines(rs: seq<Reply>): seq<string> {
    seq(|rs|, i requires 0 <= i < |rs| => ReplyLine(rs[i]))
  }

  /** The replies as bytes. */
  lemma RepliesRead(r: Reply)
    ensures r.Okay? ==> ReplyLine(r) == "OK\n"
    ensures r.Datum? ==> ReplyLine(r) == "DATA " + r.v + "\n"
    ensures r.Failed? ==> ReplyLine(r) == "FAILED " + Phrase(r.why) + "\n"
    ensures r.Error? ==> ReplyLine(r) == "ERROR " + Phrase(r.why) + "\n"
  {
    match r
    case Okay => BareReads(OK);
    case Datum(v) => SingleReads(DATA, "DATA ", v);
    case Failed(why) => SingleReads(FAILED, "FAILED ", Phrase(why));
    case Error(why) => SingleReads(ERROR, "ERROR ", Phrase(why));
  }

  lemma BareReads(k: MessageType)
    ensures Line(Content(k, [])) == Keyword(k) + "\n"
  {
  }

  lemma SingleReads(k: MessageType, start: string, w: string)
    requires start == Keyword(k) + " "
    ensures Line(Content(k, [w])) == start + w + "\n"
  {
    assert [w][1..] == [];
    assert Spread([w]) == " " + w;
  }

  predicate IsReply(r: Reply) {
    r.Datum? ==> IsValue(r.v)
  }

  predicate AllReplies(rs: seq<Reply>) {
    forall i | 0 <= i < |rs| :: IsReply(rs[i])
  }

  // ----- what a session sends ---------------------------------------------

  /** All a client has been sent, or is about to be sent, are replies. */
  predicate SendsReplies(cl: Client) {
    && AllReplies(cl.sent)
    && match cl.pc
       case AutoUnlock(_, r) => IsReply(r)
       case Releasing(_, _, _, ending) => ending.reply.Some? ==> IsReply(ending.reply.value)
       case _ => true
  }

  predicate AllSendReplies(s: State) {
    forall c | c in s.clients :: SendsReplies(s.clients[c])
  }

  lemma CalculateSends(cl: Client, r: Result)
    requires AllReplies(cl.sent) && cl.pc == Idle
    ensures Calculate(cl, r).Some? ==> SendsReplies(Calculate(cl, r).value)
  {
  }

  lemma TopSends(cl: Client)
    requires AllReplies(cl.sent) && AllValues(cl.stack) && cl.pc == Idle
    ensures SendsReplies(Top(cl))
  {
  }

  lemma DispatchSends(cl: Client, registry: map<string, TableId>, m: Content)
    requires AllReplies(cl.sent) && AllValues(cl.stack) && cl.pc == Idle
    ensures Dispatch(cl, registry, m).Some? ==> SendsReplies(Dispatch(cl, registry, m).value)
  {
    match m.kind
    case ADD => CalculateSends(cl, Arith(Add, cl.stack));
    case SUB => CalculateSends(cl, Arith(Sub, cl.stack));
    case MUL => CalculateSends(cl, Arith(Mul, cl.stack));
    case DIV => CalculateSends(cl, Arith(Div, cl.stack));
    case TOP => TopSends(cl);
    case _ =>
  }

  lemma ServeSends(cl: Client, registry: map<string, TableId>, p: Parsed)
    requires SendsReplies(cl) && AllValues(cl.stack) && cl.pc == Idle
    ensures Serve(cl, registry, p).Some? ==> SendsReplies(Serve(cl, registry, p).value)
  {
    if p.Good? && p.m.kind != LOGIN && cl.loggedIn {
      ServedIsDispatched(cl, registry, p.m);
      DispatchSends(cl.(lines := cl.lines + 1), registry, p.m);
    }
  }

  lemma ContinueSends(v: Variant, cl: Client, registry: map<string, TableId>, store: Store, owner: Option<ClientId>, pick: nat)
    requires SendsReplies(cl)
    ensures SendsReplies(Continue(v, cl, registry, store, owner, pick).0)
  {
  }

  lemma MoveSends(v: Variant, s: State, a: Action)
    requires Enabled(s, a)
    requires a.c in s.clients ==> SendsReplies(s.clients[a.c]) && AllValues(s.clients[a.c].stack)
    ensures SendsReplies(Move(v, s, a).0)
  {
    match a.input
    case Connect =>
    case Request(text) => ServeSends(s.clients[a.c], s.registry, Parse(text));
    case Eof =>
    case Go(pick) =>
      var cl := s.clients[a.c];
      ContinueSends(v, cl, s.registry, StoreAt(s, Subject(cl.pc)), OwnerAt(s, Subject(cl.pc)), pick);
  }

  /** In every reachable state, of the code as written too, every DATA reply a
      session has sent or is about to send carries a value. */
  lemma {:induction false} RepliesOnEveryRun(v: Variant, s: State, run: seq<Action>)
    requires ValuesOk(s) && SetsHaveValues(s) && AllSendReplies(s) && Legal(v, s, run)
    ensures AllSendReplies(After(v, s, run))
  {
    if run != [] {
      var n := |run| - 1;
      var y := After(v, s, run[..n]);
      RepliesOnEveryRun(v, s, run[..n]);
      ValuesOnEveryRun(v, s, run[..n]);
      MoveSends(v, y, run[n]);
      ApplyClients(y, run[n].c, Move(v, y, run[n]));
    }
  }

  // ----- single lines -----------------------------------------------------

  lemma TextIsOneLine(k: MessageType, text: string)
    requires IsPlain(text) && (k == FAILED || k == ERROR)
    ensures var s := Line(Content(k, [text])); 0 < |s| < 100 && LineLength(s) == |s| - 1
  {
    OneLine(Content(k, [text]));
  }

  /** Every reply is a single line that fits the message bound. */
  lemma ReplyIsOneLine(r: Reply)
    requires IsReply(r)
    ensures 0 < |ReplyLine(r)| <= MAX_ENCODED_LEN
    ensures LineLength(ReplyLine(r)) == |ReplyLine(r)| - 1
    ensures !r.Datum? ==> |ReplyLine(r)| < 100
    ensures r.Datum? ==> |ReplyLine(r)| == |r.v| + 6
  {
    match r
    case Okay => OkayIsOneLine();
    case Datum(v) => OneLine(Content(DATA, [v]));
    case Failed(why) => ReasonIsOneLine(FAILED, why);
    case Error(why) => ReasonIsOneLine(ERROR, why);
  }

  lemma OkayIsOneLine()
    ensures var s := Line(Content(OK, [])); |s| == 3 && LineLength(s) == 2
  {
    OneLine(Content(OK, []));
  }

  lemma ReasonIsOneLine(k: MessageType, why: Reason)
    requires k == FAILED || k == ERROR
    ensures var s := Line(Content(k, [Phrase(why)])); 0 < |s| < 100 && LineLength(s) == |s| - 1
  {
    PhraseIsPlain(why);
    TextIsOneLine(k, Phrase(why));
  }

  lemma OneLine(m: Content)
    requires m.kind == OK || m.kind == DATA || m.kind == FAILED || m.kind == ERROR
    requires |m.args| <= 1
    requires |m.args| == 1 ==> forall i | 0 <= i < |m.args[0]| :: m.args[0][i] != '\n'
    ensures |Line(m)| == |Keyword(m.kind)| + (if m.args == [] then 1 else |m.args[0]| + 2)
    ensures LineLength(Line(m)) == |Line(m)| - 1
  {
    var s := Line(m);
    if m.args != [] {
      assert m.args[1..] == [];
      assert Spread(m.args) == " " + m.args[0];
      assert s == Keyword(m.kind) + " " + m.args[0] + "\n";
    } else {
      assert s == Keyword(m.kind) + "\n";
    }
    assert forall i | 0 <= i < |s| - 1 :: s[i] != '\n';
    assert s[|s| - 1] == '\n';
  }

  // ----- what the client reads --------------------------------------------

  /** The one reply that does not fit a client's buffer: the buffer has 1024 bytes,
      and one of them is for the NUL. */
  predicate IsTooLong(r: Reply) {
    r.Datum? && |r.v| == MAX_VALUE_LEN
  }

  predicate NoneTooLong(rs: seq<Reply>) {
    forall i | 0 <= i < |rs| :: !IsTooLong(rs[i])
  }

  /** A reply comes back whole exactly if it leaves room for the NUL: every OK,
      FAILED and ERROR does, and a DATA reply does up to 1017 characters, one less
      than the server can hold and send. */
  lemma ReplyComesBackWhole(r: Reply, rest: string)
    requires IsReply(r)
    ensures Cut(ReplyLine(r) + rest, MAX_ENCODED_LEN) == ReplyLine(r) <==> !IsTooLong(r)
  {
    ReplyIsOneLine(r);
    var line := ReplyLine(r);
    if |line| < MAX_ENCODED_LEN {
      assert line[|line| - 1] == '\n';
      CutIsUnique(line, rest, MAX_ENCODED_LEN);
    }
  }

  lemma {:induction false} LinesAreShort(stream: string, maxlen: nat)
    requires maxlen >= 2
    ensures forall i | 0 <= i < |LinesOf(stream, maxlen)| :: |LinesOf(stream, maxlen)[i]| < maxlen
    decreases |stream|
  {
    if stream != "" {
      LinesAreShort(stream[CutLength(stream, maxlen)..], maxlen);
    }
  }

  /** A stream of replies, cut into lines, is those replies one by one, if and only
      if none is too long. */
  lemma RepliesComeBack(rs: seq<Reply>)
    requires AllReplies(rs)
    ensures LinesOf(Concat(ReplyLines(rs)), MAX_ENCODED_LEN) == ReplyLines(rs) <==>
              NoneTooLong(rs)
  {
    forall i | 0 <= i < |rs|
      ensures 0 < |ReplyLines(rs)[i]|
      ensures |ReplyLines(rs)[i]| < MAX_ENCODED_LEN <==> !IsTooLong(rs[i])
      ensures LineLength(ReplyLines(rs)[i]) == |ReplyLines(rs)[i]| - 1
    {
      ReplyIsOneLine(rs[i]);
    }
    LinesAreShort(Concat(ReplyLines(rs)), MAX_ENCODED_LEN);
    if NoneTooLong(rs) {
      LinesComeBack(ReplyLines(rs), MAX_ENCODED_LEN);
    }
  }

  /** Over every run, for every session: it has answered every line it has taken,
      bar the one it is working on, and all the bytes it has sent, cut into lines by
      its client, are its replies one by one, if and only if none is too long. */
  lemma {:induction false} SessionBytesComeBack(v: Variant, s: State, run: seq<Action>, c: ClientId)
    requires ValuesOk(s) && SetsHaveValues(s) && AllSendReplies(s) && AllInStep(s) && Legal(v, s, run)
    requires c in After(v, s, run).clients
    ensures var cl := After(v, s, run).clients[c];
            && cl.lines == |cl.sent| + (if Owes(cl.pc) then 1 else 0)
            && AllReplies(cl.sent)
            && (LinesOf(Concat(ReplyLines(cl.sent)), MAX_ENCODED_LEN) == ReplyLines(cl.sent) <==>
                  NoneTooLong(cl.sent))
  {
    SessionsInLockStep(v, s, run);
    RepliesOnEveryRun(v, s, run);
    RepliesComeBack(After(v, s, run).clients[c].sent);
  }

  /** A client's read of the reply to its request, with a buffer of its own: what the
      buffer holds beyond the line is thrown away with it. If earlier reads have left
      nothing behind, nothing is lost, if and only if the reply is not too long. */
  method ReadReply(fd: Descriptor, usr: array<char>, ghost left: string, ghost r: Reply) returns (line: string, rio: Reader)
    requires IsReply(r) && fd.stream == left + ReplyLine(r) && Failure !in fd.turns
    requires usr.Length == MAX_ENCODED_LEN
    modifies fd, usr
    ensures fresh(rio) && rio.fd == fd && rio.Valid() && rio.Healthy()
    ensures |line| < MAX_ENCODED_LEN && line + rio.Pending() == left + ReplyLine(r)
    ensures left == "" ==> (line == ReplyLine(r) && rio.Pending() == "" <==> !IsTooLong(r))
  {
    rio := new Reader(fd);
    var n, got := rio.ReadLine(usr, MAX_ENCODED_LEN);
    line := usr[..n];
    if left == "" {
      assert left + ReplyLine(r) == ReplyLine(r) + "";
      ReplyComesBackWhole(r, "");
    }
  }

  /** The requests of a client program, one after the other, each answered before
      the next: with a fresh buffer for every request it gets exactly the replies
      that were sent, if and only if none is too long. */
  method Converse(fd: Descriptor, usr: array<char>, rs: seq<Reply>) returns (lines: seq<string>)
    requires AllReplies(rs) && fd.stream == "" && Failure !in fd.turns
    requires usr.Length == MAX_ENCODED_LEN
    modifies fd, usr
    ensures |lines| == |rs|
    ensures lines == ReplyLines(rs) <==> NoneTooLong(rs)
    ensures NoneTooLong(rs) ==> fd.stream == ""
  {
    lines := [];
    ghost var sent, whole := ReplyLines(rs), NoneTooLong(rs);
    while |lines| < |rs|
      invariant |lines| <= |rs| && Failure !in fd.turns
      invariant forall i | 0 <= i < |lines| :: |lines[i]| < MAX_ENCODED_LEN
      invariant whole ==> fd.stream == "" && lines == sent[..|lines|]
    {
      var k := |lines|;
      assert IsReply(rs[k]) && (whole ==> !IsTooLong(rs[k]));
      var line := Exchange(fd, usr, rs[k]);
      OneMore(sent, lines, line);
      lines := lines + [line];
    }
    if !whole {
      ShortLinesDiffer(lines, rs);
    }
  }

  lemma OneMore(sent: seq<string>, lines: seq<string>, line: string)
    requires |lines| < |sent|
    ensures lines == sent[..|lines|] && line == sent[|lines|] ==> lines + [line] == sent[..|lines| + 1]
  {
  }

  /** One request: the server answers, the client reads with a fresh buffer. */
  method Exchange(fd: Descriptor, usr: array<char>, r: Reply) returns (line: string)
    requires IsReply(r) && Failure !in fd.turns && usr.Length == MAX_ENCODED_LEN
    modifies fd, usr
    ensures Failure !in fd.turns && |line| < MAX_ENCODED_LEN
    ensures old(fd.stream) == "" && !IsTooLong(r) ==> line == ReplyLine(r) && fd.stream == ""
  {
    ghost var left := fd.stream;
    fd.stream := fd.stream + ReplyLine(r);
    var rio;
    line, rio := ReadReply(fd, usr, left, r);
  }

  lemma ShortLinesDiffer(lines: seq<string>, rs: seq<Reply>)
    requires AllReplies(rs) && !NoneTooLong(rs) && |lines| == |rs|
    requires forall i | 0 <= i < |lines| :: |lines[i]| < MAX_ENCODED_LEN
    ensures lines != ReplyLines(rs)
  {
    var i :| 0 <= i < |rs| && IsTooLong(rs[i]);
    ReplyIsOneLine(rs[i]);
    assert lines[i] != ReplyLines(rs)[i];
  }

  // ----- what the client understands --------------------------------------

  lemma ReasonIsRejected(k: MessageType, why: Reason)
    requires k == FAILED || k == ERROR
    ensures Parse(Line(Content(k, [Phrase(why)]))) == Bad(NoQuotation)
  {
    PhraseIsPlain(why);
    var m := Content(k, [Phrase(why)]);
    ReasonIsOneLine(k, why);
    OneArgumentLine(k, Phrase(why));
    CStringOfPlain(Line(m));
    UnquotedIsRejected(m, Content(NONE, []));
  }

  lemma OkayIsUnderstood()
    ensures Parse(Line(Content(OK, []))) == Good(Content(OK, []))
  {
    ParseOfLine(Content(OK, []));
  }

  lemma DataIsUnderstood(v: string)
    requires IsValue(v)
    ensures Parse(Line(Content(DATA, [v]))) == Good(Content(DATA, [v]))
  {
    OneArgumentLine(DATA, v);
    ParseOfLine(Content(DATA, [v]));
  }

  /** A client's `decode` understands OK and DATA, and rejects every FAILED and
      every ERROR the server can send, for want of quotation marks. */
  lemma OnlySuccessIsUnderstood(r: Reply)
    requires IsReply(r)
    ensures Parse(ReplyLine(r)) == if r.Okay? || r.Datum? then Good(ReplyMessage(r)) else Bad(NoQuotation)
  {
    match r
    case Okay => OkayIsUnderstood();
    case Datum(v) => DataIsUnderstood(v);
    case Failed(why) => ReasonIsRejected(FAILED, why);
    case Error(why) => ReasonIsRejected(ERROR, why);
  }

  /** Reading and decoding together: what reaches the client program is the reply's
      message if and only if the reply is OK, or DATA with at most 1017 characters. */
  lemma ClientUnderstands(r: Reply)
    requires IsReply(r)
    ensures Parse(Cut(ReplyLine(r), MAX_ENCODED_LEN)) == Good(ReplyMessage(r)) <==>
              r.Okay? || (r.Datum? && |r.v| < MAX_VALUE_LEN)
  {
    ReplyComesBackWhole(r, "");
    assert ReplyLine(r) + "" == ReplyLine(r);
    if IsTooLong(r) {
      CutLineIsRejected(r);
    } else {
      OnlySuccessIsUnderstood(r);
    }
  }

  lemma CutLineIsRejected(r: Reply)
    requires IsReply(r) && IsTooLong(r)
    ensures Parse(Cut(ReplyLine(r), MAX_ENCODED_LEN)) == Bad(NoNewline)
  {
    ReplyIsOneLine(r);
    var line, cut := ReplyLine(r), Cut(ReplyLine(r), MAX_ENCODED_LEN);
    assert cut == line[..|line| - 1];
    OneArgumentLine(DATA, r.v);
    CStringOfPlain(cut);
  }
}
