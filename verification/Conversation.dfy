/** Lines and replies side by side: on every run, however requests interleave, the replies
    a session has sent answer its lines, in their order. */
module Conversation {
  import opened Crashes
  import opened Engine
  import opened Loop
  import opened Messages
  import opened Phrases
  import opened Replies
  import opened Runs
  import opened Sessions
  import opened StackMachine
  import opened Tables
  import opened Values
  import opened Wrappers

  /** What `decode` has made of the lines of client `c`, in order. */
  function Heard(run: seq<Action>, c: ClientId): seq<Parsed> {
    if run == [] then []
    else
      var n := |run| - 1;
      Heard(run[..n], c) + if run[n].c == c && run[n].input.Request? then [Parse(run[n].input.text)] else []
  }

  /** There was a LOGIN before line `i`. */
  predicate LoggedInBy(ps: seq<Parsed>, i: nat)
    requires i <= |ps|
  {
    exists j :: 0 <= j < i && IsLogin(ps[j])
  }

  // ----- which replies a line can get -------------------------------------

  /** The ways a request can fail. */
  predicate MayFail(k: MessageType, why: Reason) {
    match k
    case POP => why == OnStack(NothingToPop)
    case TOP => why == OnStack(NothingOnTop)
    case ADD => why == OnStack(TooFewOperands(Add)) || why == OnStack(NotAnInteger)
    case SUB => why == OnStack(TooFewOperands(Sub)) || why == OnStack(NotAnInteger)
    case MUL => why == OnStack(TooFewOperands(Mul)) || why == OnStack(NotAnInteger)
    case DIV => why == OnStack(TooFewOperands(Div)) || why == OnStack(NotAnInteger)
    case BEGIN => why == NestedTransaction
    case COMMIT => why == NoTransaction
    case CREATE => why == TableExists
    case SET => why == NoValueOnStack || why == TableNotFound || why == TableBusy
    case GET => why == TableNotFound || why == KeyNotFound || why == TableBusy
    case LOGIN => false
    case PUSH => false
    case BYE => false
    case _ => why == NotARequest
  }

  /** The requests that are answered OK. */
  predicate MaySucceed(k: MessageType) {
    k in {LOGIN, CREATE, PUSH, POP, SET, GET, ADD, SUB, MUL, DIV, BEGIN, COMMIT, BYE}
  }

  /** The reply fits what was heard, in a session that has logged in or not. */
  predicate ReplyFits(p: Parsed, known: bool, r: Reply) {
    match p
    case Uncaught => false
    case Bad(why) => r == Error(BadLine(why))
    case Good(m) =>
      if m.kind == LOGIN then r == Okay
      else if !known then r == Error(NotLoggedIn)
      else
        || (r == Okay && MaySucceed(m.kind))
        || (r.Datum? && m.kind == TOP && IsValue(r.v))
        || (r.Failed? && MayFail(m.kind, r.why))
  }

  predicate Concerns(p: Parsed, op: TableOp) {
    p.Good? && p.m.kind == if op.GetOp? then GET else SET
  }

  /** The thread is on its way to a reply that fits. */
  predicate PcFits(p: Parsed, known: bool, pc: Pc) {
    match pc
    case AutoWait(op, _) => known && Concerns(p, op)
    case AutoRun(op, _) => known && Concerns(p, op)
    case TxAcquire(op, _) => known && Concerns(p, op)
    case TxRun(op, _) => known && Concerns(p, op)
    case AutoCommit(_) => known && p.Good? && p.m.kind == SET
    case Stray(_) => known && p.Good? && p.m.kind == GET
    case AutoUnlock(_, r) => ReplyFits(p, known, r)
    case Releasing(_, _, _, e) => e.reply.Some? && ReplyFits(p, known, e.reply.value)
    case CreateWait(_) => known && p.Good? && p.m.kind == CREATE
    case CreateFind(_) => known && p.Good? && p.m.kind == CREATE
    case CreateInsert(_) => known && p.Good? && p.m.kind == CREATE
    case CreateUnlock(_) => known && p.Good? && p.m.kind == CREATE
    case _ => false
  }

  /** The client goes on working on the line, or answers it. */
  predicate Advances(cl: Client, cl': Client, p: Parsed, known: bool) {
    if Owes(cl'.pc) then cl'.sent == cl.sent && PcFits(p, known, cl'.pc)
    else
      && |cl'.sent| == |cl.sent| + 1 && cl.sent <= cl'.sent
      && ReplyFits(p, known, cl'.sent[|cl.sent|])
  }

  // ----- one step ---------------------------------------------------------

  lemma RefusalIs(op: ArithOp, stack: seq<string>)
    ensures Arith(op, stack).Refuse? ==> Arith(op, stack).why == TooFewOperands(op) || Arith(op, stack).why == NotAnInteger
  {
  }

  lemma CalculateAdvances(cl: Client, m: Content, op: ArithOp, r: Result)
    requires cl.pc == Idle && m.kind == RequestFor(op)
    requires r.Refuse? ==> r.why == TooFewOperands(op) || r.why == NotAnInteger
    ensures Calculate(cl, r).Some? ==> Advances(cl, Calculate(cl, r).value, Good(m), true)
  {
  }

  lemma ArithmeticAdvances(cl: Client, registry: map<string, TableId>, m: Content, op: ArithOp)
    requires cl.pc == Idle && m.kind == RequestFor(op)
    ensures var r := Dispatch(cl, registry, m); r.Some? ==> Advances(cl, r.value, Good(m), true)
  {
    OperatorDispatched(cl, registry, m, op);
    RefusalIs(op, cl.stack);
    CalculateAdvances(cl, m, op, Arith(op, cl.stack));
  }

  lemma TopAdvances(cl: Client, m: Content)
    requires cl.pc == Idle && m.kind == TOP && AllValues(cl.stack)
    ensures Advances(cl, Top(cl), Good(m), true)
  {
    if cl.stack != [] {
      ValueFits(cl.stack[|cl.stack| - 1]);
    }
  }

  lemma AccessAdvances(cl: Client, registry: map<string, TableId>, m: Content)
    requires cl.pc == Idle && m.kind in {CREATE, SET, GET}
    ensures var r := Dispatch(cl, registry, m); r.Some? ==> Advances(cl, r.value, Good(m), true)
  {
  }

  lemma TransactionRequestAdvances(cl: Client, registry: map<string, TableId>, m: Content)
    requires cl.pc == Idle && m.kind in {BEGIN, COMMIT, BYE}
    ensures var r := Dispatch(cl, registry, m); r.Some? ==> Advances(cl, r.value, Good(m), true)
  {
  }

  lemma EntryAdvances(cl: Client, registry: map<string, TableId>, m: Content)
    requires cl.pc == Idle && m.kind in {PUSH, POP}
    ensures var r := Dispatch(cl, registry, m); r.Some? ==> Advances(cl, r.value, Good(m), true)
  {
  }

  lemma NoRequestAdvances(cl: Client, registry: map<string, TableId>, m: Content)
    requires cl.pc == Idle && m.kind in {NONE, OK, FAILED, ERROR, DATA}
    ensures var r := Dispatch(cl, registry, m); r.Some? ==> Advances(cl, r.value, Good(m), true)
  {
  }

  lemma DispatchAdvances(cl: Client, registry: map<string, TableId>, m: Content)
    requires cl.pc == Idle && AllValues(cl.stack) && m.kind != LOGIN
    ensures var r := Dispatch(cl, registry, m); r.Some? ==> Advances(cl, r.value, Good(m), true)
  {
    match m.kind
    case ADD => ArithmeticAdvances(cl, registry, m, Add);
    case SUB => ArithmeticAdvances(cl, registry, m, Sub);
    case MUL => ArithmeticAdvances(cl, registry, m, Mul);
    case DIV => ArithmeticAdvances(cl, registry, m, Div);
    case TOP => TopAdvances(cl, m);
    case CREATE => AccessAdvances(cl, registry, m);
    case SET => AccessAdvances(cl, registry, m);
    case GET => AccessAdvances(cl, registry, m);
    case BEGIN => TransactionRequestAdvances(cl, registry, m);
    case COMMIT => TransactionRequestAdvances(cl, registry, m);
    case BYE => TransactionRequestAdvances(cl, registry, m);
    case PUSH => EntryAdvances(cl, registry, m);
    case POP => EntryAdvances(cl, registry, m);
    case _ => NoRequestAdvances(cl, registry, m);
  }

  lemma DispatchKeepsLogin(cl: Client, registry: map<string, TableId>, m: Content)
    ensures Dispatch(cl, registry, m).Some? ==> Dispatch(cl, registry, m).value.loggedIn == cl.loggedIn
  {
    match m.kind
    case ADD => CalculateKeepsLogin(cl, Arith(Add, cl.stack));
    case SUB => CalculateKeepsLogin(cl, Arith(Sub, cl.stack));
    case MUL => CalculateKeepsLogin(cl, Arith(Mul, cl.stack));
    case DIV => CalculateKeepsLogin(cl, Arith(Div, cl.stack));
    case _ =>
  }

  lemma CalculateKeepsLogin(cl: Client, r: Result)
    ensures Calculate(cl, r).Some? ==> Calculate(cl, r).value.loggedIn == cl.loggedIn
  {
  }

  /** A line is taken. */
  lemma ServeAdvances(cl: Client, registry: map<string, TableId>, p: Parsed)
    requires cl.pc == Idle && AllValues(cl.stack)
    ensures var r := Serve(cl, registry, p);
            r.Some? ==>
              && Advances(cl, r.value, p, cl.loggedIn) && r.value.lines == cl.lines + 1
              && (r.value.loggedIn <==> cl.loggedIn || IsLogin(p))
  {
    var counted := cl.(lines := cl.lines + 1);
    if p.Good? && p.m.kind != LOGIN && cl.loggedIn {
      ServedIsDispatched(cl, registry, p.m);
      DispatchAdvances(counted, registry, p.m);
      DispatchKeepsLines(counted, registry, p.m);
      DispatchKeepsLogin(counted, registry, p.m);
    }
  }

  predicate InCreation(pc: Pc) {
    pc.CreateWait? || pc.CreateFind? || pc.CreateInsert? || pc.CreateUnlock?
  }

  lemma CreationAdvances(v: Variant, cl: Client, registry: map<string, TableId>, store: Store, owner: Option<ClientId>, pick: nat, p: Parsed, known: bool)
    requires Owes(cl.pc) && PcFits(p, known, cl.pc) && InCreation(cl.pc)
    ensures Advances(cl, Continue(v, cl, registry, store, owner, pick).0, p, known)
  {
  }

  lemma ReleaseAdvances(v: Variant, cl: Client, registry: map<string, TableId>, store: Store, owner: Option<ClientId>, pick: nat, p: Parsed, known: bool)
    requires PcFits(p, known, cl.pc) && cl.pc.Releasing?
    ensures Advances(cl, Continue(v, cl, registry, store, owner, pick).0, p, known)
  {
  }

  lemma AutocommitAdvances(v: Variant, cl: Client, registry: map<string, TableId>, store: Store, owner: Option<ClientId>, pick: nat, p: Parsed, known: bool)
    requires PcFits(p, known, cl.pc) && (cl.pc.AutoWait? || cl.pc.AutoRun? || cl.pc.AutoCommit? || cl.pc.AutoUnlock?)
    ensures Advances(cl, Continue(v, cl, registry, store, owner, pick).0, p, known)
  {
  }

  lemma TransactionAdvances(v: Variant, cl: Client, registry: map<string, TableId>, store: Store, owner: Option<ClientId>, pick: nat, p: Parsed, known: bool)
    requires PcFits(p, known, cl.pc) && (cl.pc.TxAcquire? || cl.pc.TxRun? || cl.pc.Stray?)
    ensures Advances(cl, Continue(v, cl, registry, store, owner, pick).0, p, known)
  {
  }

  /** The thread goes on. */
  lemma ContinueAdvances(v: Variant, cl: Client, registry: map<string, TableId>, store: Store, owner: Option<ClientId>, pick: nat, p: Parsed, known: bool)
    requires Owes(cl.pc) && PcFits(p, known, cl.pc)
    ensures Advances(cl, Continue(v, cl, registry, store, owner, pick).0, p, known)
  {
    if InCreation(cl.pc) {
      CreationAdvances(v, cl, registry, store, owner, pick, p, known);
    } else if cl.pc.Releasing? {
      ReleaseAdvances(v, cl, registry, store, owner, pick, p, known);
    } else if cl.pc.TxAcquire? || cl.pc.TxRun? || cl.pc.Stray? {
      TransactionAdvances(v, cl, registry, store, owner, pick, p, known);
    } else {
      AutocommitAdvances(v, cl, registry, store, owner, pick, p, known);
    }
  }

  lemma ContinueIsSilent(v: Variant, cl: Client, registry: map<string, TableId>, store: Store, owner: Option<ClientId>, pick: nat)
    ensures var cl' := Continue(v, cl, registry, store, owner, pick).0;
            && cl'.lines == cl.lines && cl'.loggedIn == cl.loggedIn
            && (!Owes(cl.pc) ==> !Owes(cl'.pc) && cl'.sent == cl.sent)
  {
  }

  // ----- runs -------------------------------------------------------------

  /** The replies sent so far answer the lines heard so far, one by one; the last line
      may still be in work. */
  predicate Converses(cl: Client, ps: seq<Parsed>) {
    && |ps| == cl.lines == |cl.sent| + (if Owes(cl.pc) then 1 else 0)
    && (cl.loggedIn <==> LoggedInBy(ps, |ps|))
    && (forall i | 0 <= i < |cl.sent| :: ReplyFits(ps[i], LoggedInBy(ps, i), cl.sent[i]))
    && (Owes(cl.pc) ==> PcFits(ps[|ps| - 1], LoggedInBy(ps, |ps| - 1), cl.pc))
  }

  lemma LoginStays(ps: seq<Parsed>, p: Parsed, i: nat)
    requires i <= |ps|
    ensures LoggedInBy(ps + [p], i) == LoggedInBy(ps, i)
    ensures LoggedInBy(ps + [p], |ps| + 1) <==> LoggedInBy(ps, |ps|) || IsLogin(p)
  {
    var qs := ps + [p];
    assert forall j | 0 <= j < |ps| :: qs[j] == ps[j];
    assert qs[|ps|] == p;
  }

  lemma HearsMore(cl: Client, cl': Client, ps: seq<Parsed>, p: Parsed)
    requires Converses(cl, ps) && !Owes(cl.pc)
    requires Advances(cl, cl', p, cl.loggedIn) && cl'.lines == cl.lines + 1
    requires cl'.loggedIn <==> cl.loggedIn || IsLogin(p)
    ensures Converses(cl', ps + [p])
  {
    var qs := ps + [p];
    LoginStays(ps, p, |ps|);
    forall i | 0 <= i < |cl'.sent| ensures ReplyFits(qs[i], LoggedInBy(qs, i), cl'.sent[i]) {
      LoginStays(ps, p, i);
      assert i < |cl.sent| ==> cl'.sent[i] == cl.sent[i] && ReplyFits(ps[i], LoggedInBy(ps, i), cl.sent[i]);
    }
  }

  lemma WorksOnIt(cl: Client, cl': Client, ps: seq<Parsed>)
    requires Converses(cl, ps) && cl'.lines == cl.lines && cl'.loggedIn == cl.loggedIn
    requires if Owes(cl.pc) then Advances(cl, cl', ps[|ps| - 1], LoggedInBy(ps, |ps| - 1)) else !Owes(cl'.pc) && cl'.sent == cl.sent
    ensures Converses(cl', ps)
  {
    forall i | 0 <= i < |cl'.sent| ensures ReplyFits(ps[i], LoggedInBy(ps, i), cl'.sent[i]) {
      assert i < |cl.sent| ==> cl'.sent[i] == cl.sent[i];
    }
  }

  lemma HeardIs(run: seq<Action>, a: Action, c: ClientId)
    ensures Heard(run + [a], c) == Heard(run, c) + if a.c == c && a.input.Request? then [Parse(a.input.text)] else []
    ensures a.c != c ==> Heard(run + [a], c) == Heard(run, c)
  {
    assert (run + [a])[..|run|] == run;
  }

  lemma MoveConverses(v: Variant, s: State, a: Action, ps: seq<Parsed>)
    requires Enabled(s, a) && a.c in s.clients && Converses(s.clients[a.c], ps) && AllValues(s.clients[a.c].stack)
    requires a.input.Request? ==> Serve(s.clients[a.c], s.registry, Parse(a.input.text)).Some?
    ensures Converses(Move(v, s, a).0, ps + if a.input.Request? then [Parse(a.input.text)] else [])
  {
    var cl := s.clients[a.c];
    match a.input
    case Connect =>
    case Request(text) =>
      ServeAdvances(cl, s.registry, Parse(text));
      HearsMore(cl, Move(v, s, a).0, ps, Parse(text));
    case Eof =>
      assert ps + [] == ps;
      WorksOnIt(cl, Move(v, s, a).0, ps);
    case Go(pick) =>
      var store, owner := StoreAt(s, Subject(cl.pc)), OwnerAt(s, Subject(cl.pc));
      ContinueIsSilent(v, cl, s.registry, store, owner, pick);
      if Owes(cl.pc) {
        ContinueAdvances(v, cl, s.registry, store, owner, pick, ps[|ps| - 1], LoggedInBy(ps, |ps| - 1));
      }
      assert ps + [] == ps;
      WorksOnIt(cl, Move(v, s, a).0, ps);
  }

  /** All sessions, those that have not been opened yet included. */
  ghost predicate AllConverse(s: State, run: seq<Action>) {
    forall c :: if c in s.clients then Converses(s.clients[c], Heard(run, c)) else Heard(run, c) == []
  }

  lemma MoverConverses(v: Variant, s: State, run: seq<Action>, a: Action)
    requires Enabled(s, a) && AllConverse(s, run) && ValuesOk(s) && Move(v, s, a).1 != Crashes
    ensures Converses(Move(v, s, a).0, Heard(run + [a], a.c))
  {
    HeardIs(run, a, a.c);
    if a.c in s.clients {
      assert Converses(s.clients[a.c], Heard(run, a.c));
      MoveConverses(v, s, a, Heard(run, a.c));
    }
  }

  lemma {:induction false} StepConverses(s: State, z: State, run: seq<Action>, a: Action, cl: Client)
    requires AllConverse(s, run) && z.clients == s.clients[a.c := cl] && Converses(cl, Heard(run + [a], a.c))
    ensures AllConverse(z, run + [a])
  {
    forall c ensures if c in z.clients then Converses(z.clients[c], Heard(run + [a], c)) else Heard(run + [a], c) == [] {
      HeardIs(run, a, c);
      assert if c in s.clients then Converses(s.clients[c], Heard(run, c)) else Heard(run, c) == [];
    }
  }

  lemma AllGoOnConversing(v: Variant, y: State, run: seq<Action>, a: Action)
    requires Enabled(y, a) && AllConverse(y, run) && ValuesOk(y) && !y.crashed && !Step(v, y, a).crashed
    ensures AllConverse(Step(v, y, a), run + [a])
  {
    ApplyCrashes(y, a.c, Move(v, y, a));
    ApplyClients(y, a.c, Move(v, y, a));
    MoverConverses(v, y, run, a);
    StepConverses(y, Step(v, y, a), run, a, Move(v, y, a).0);
  }

  /** On every run of a server that starts empty and is still up: each session's replies
      answer its lines, in order, one reply a line, whatever other sessions do. */
  lemma {:induction false} RepliesAnswerLines(v: Variant, run: seq<Action>)
    requires Legal(v, EMPTY_SERVER, run) && !After(v, EMPTY_SERVER, run).crashed
    ensures AllConverse(After(v, EMPTY_SERVER, run), run)
  {
    if run != [] {
      var n := |run| - 1;
      LastAction(v, EMPTY_SERVER, run);
      RepliesAnswerLines(v, run[..n]);
      ValuesOnEveryRun(v, EMPTY_SERVER, run[..n]);
      AllGoOnConversing(v, After(v, EMPTY_SERVER, run[..n]), run[..n], run[n]);
      assert run[..n] + [run[n]] == run;
    }
  }

  /** The bytes a line is answered with. */
  predicate BytesFit(p: Parsed, known: bool, r: Reply, bytes: string) {
    match p
    case Uncaught => false
    case Bad(why) => bytes == "ERROR " + Phrase(BadLine(why)) + "\n"
    case Good(m) =>
      if m.kind == LOGIN then bytes == "OK\n"
      else if !known then bytes == "ERROR " + Phrase(NotLoggedIn) + "\n"
      else
        match r
        case Okay => MaySucceed(m.kind) && bytes == "OK\n"
        case Datum(w) => m.kind == TOP && IsValue(w) && bytes == "DATA " + w + "\n"
        case Failed(why) => MayFail(m.kind, why) && bytes == "FAILED " + Phrase(why) + "\n"
        case Error(_) => false
  }

  lemma BytesAre(p: Parsed, known: bool, r: Reply)
    requires ReplyFits(p, known, r)
    ensures BytesFit(p, known, r, ReplyLine(r))
  {
    RepliesRead(r);
  }

  /** And so in bytes: a line that says nothing gets an ERROR; a LOGIN gets an OK; before
      a LOGIN anything else gets an ERROR; after it, a request gets OK, or, if it is TOP,
      DATA with a value, or a FAILED with one of the reasons it may fail for. */
  lemma {:induction false} BytesAnswerLines(v: Variant, run: seq<Action>, c: ClientId, i: nat)
    requires Legal(v, EMPTY_SERVER, run) && !After(v, EMPTY_SERVER, run).crashed
    requires var z := After(v, EMPTY_SERVER, run); c in z.clients && i < |z.clients[c].sent|
    ensures i < |Heard(run, c)|
    ensures var r := After(v, EMPTY_SERVER, run).clients[c].sent[i];
            BytesFit(Heard(run, c)[i], LoggedInBy(Heard(run, c), i), r, ReplyLine(r))
  {
    RepliesAnswerLines(v, run);
    var cl, ps := After(v, EMPTY_SERVER, run).clients[c], Heard(run, c);
    assert Converses(cl, ps);
    assert ReplyFits(ps[i], LoggedInBy(ps, i), cl.sent[i]);
    BytesAre(ps[i], LoggedInBy(ps, i), cl.sent[i]);
  }
}
