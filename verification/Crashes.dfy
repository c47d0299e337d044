/** When a request brings the server down: exactly when, and that it can. */
module Crashes {
  import opened Codec
  import opened Digits
  import opened Engine
  import opened Messages
  import opened Requests
  import opened Runs
  import opened StackMachine
  import opened Tables
  import opened Text
  import opened Values
  import opened Wrappers

  // ----- arithmetic without a result --------------------------------------

  /** C++ leaves the operation undefined: signed overflow, or division by zero. */
  predicate IsUndefined(op: ArithOp, l: int, r: int) {
    match op
    case Add => !IsInt(l + r)
    case Sub => !IsInt(l - r)
    case Mul => !IsInt(l * r)
    case Div => r == 0 || (l == INT_MIN && r == -1)
  }

  /** What nobody catches. The right operand is converted first; if it is no number
      at all, the left one is not looked at. */
  predicate IsFatal(op: ArithOp, l: Conversion, r: Conversion) {
    || r == Conversion.OutOfRange
    || (r.Value? && l == Conversion.OutOfRange)
    || (r.Value? && l.Value? && IsUndefined(op, l.n, r.n))
  }

  lemma QuotientIsSmall(m: nat, n: nat)
    requires n > 0
    ensures m / n <= m
    ensures n >= 2 && m > 0 ==> m / n < m
  {
    DivisionParts(m, n);
    var q := m / n;
    ProductGrows(q, q, 1, n);
    if n >= 2 {
      ProductGrows(q, q, 2, n);
    }
  }

  /** A quotient of ints is an int, with one exception. */
  lemma QuotientIsInt(l: int, r: int)
    requires IsInt(l) && IsInt(r) && r != 0
    ensures IsInt(TruncatedQuotient(l, r)) <==> !(l == INT_MIN && r == -1)
  {
    QuotientIsSmall(Magnitude(l), Magnitude(r));
    if Magnitude(r) == 1 {
      assert Magnitude(l) / 1 == Magnitude(l);
    }
  }

  lemma ComputeFailsExactly(op: ArithOp, l: int, r: int)
    requires IsInt(l) && IsInt(r)
    ensures Compute(op, l, r) == None <==> IsUndefined(op, l, r)
  {
    if op == Div && r != 0 {
      QuotientIsInt(l, r);
    }
  }

  lemma ConcludeCrashesExactly(op: ArithOp, stack: seq<string>, l: Conversion, r: Conversion)
    requires |stack| >= 2 && (l.Value? ==> IsInt(l.n)) && (r.Value? ==> IsInt(r.n))
    ensures Conclude(op, stack, Classify(l, r)).Crash? <==> IsFatal(op, l, r)
  {
    if l.Value? && r.Value? {
      ComputeFailsExactly(op, l.n, r.n);
    }
  }

  /** There are two operands, and nobody catches what they lead to. */
  predicate HasNoResult(op: ArithOp, stack: seq<string>) {
    |stack| >= 2 && IsFatal(op, Stoi(stack[|stack| - 2]), Stoi(stack[|stack| - 1]))
  }

  lemma ArithCrashesExactly(op: ArithOp, stack: seq<string>)
    ensures Arith(op, stack).Crash? <==> HasNoResult(op, stack)
  {
    if |stack| >= 2 {
      var l, r := stack[|stack| - 2], stack[|stack| - 1];
      StoiIsInt(l);
      StoiIsInt(r);
      ConcludeCrashesExactly(op, stack, Stoi(l), Stoi(r));
    }
  }

  // ----- requests ---------------------------------------------------------

  /** Whatever a line is, `decode` throws nothing the session does not catch, and
      what it accepts conforms to the protocol. */
  lemma ParsedConforms(text: string)
    ensures Parse(text) != Uncaught
    ensures Parse(text).Good? ==> Conforms(Parse(text).m)
  {
    DecodeNeverEscapes(CString(text), Content(NONE, []));
    DoneConforms(KindOf(TypeWord(CString(text))), CString(text), Content(NONE, []));
  }

  lemma DoneConforms(k: MessageType, s: string, prior: Content)
    ensures DecodeAs(k, s, prior).0 == Done ==> Conforms(DecodeAs(k, s, prior).1)
  {
    AssembleConforms(k, TextAfterType(s));
  }

  lemma AssembleConforms(k: MessageType, text: string)
    ensures Assemble(k, text).0 == Done ==> Conforms(Assemble(k, text).1)
  {
  }

  predicate IsArithmetic(k: MessageType) {
    k == ADD || k == SUB || k == MUL || k == DIV
  }

  function OperatorOf(k: MessageType): (op: ArithOp)
    requires IsArithmetic(k)
    ensures RequestFor(op) == k
  {
    match k case ADD => Add case SUB => Sub case MUL => Mul case DIV => Div
  }

  /** The request is arithmetic, and its two operands have no result. */
  predicate IsDeadly(cl: Client, p: Parsed) {
    p.Good? && cl.loggedIn && IsArithmetic(p.m.kind) && HasNoResult(OperatorOf(p.m.kind), cl.stack)
  }

  lemma HarmlessDispatch(cl: Client, registry: map<string, TableId>, m: Content)
    requires Conforms(m) && !IsArithmetic(m.kind)
    ensures Dispatch(cl, registry, m).Some?
  {
    match m.kind
    case CREATE => assert |m.args| == 1;
    case PUSH => assert |m.args| == 1;
    case SET => assert |m.args| == 2;
    case GET => assert |m.args| == 2;
    case _ =>
  }

  lemma CalculateCrashes(cl: Client, r: Result)
    ensures Calculate(cl, r) == None <==> r.Crash?
  {
  }

  lemma ArithmeticServed(cl: Client, registry: map<string, TableId>, m: Content, op: ArithOp)
    requires cl.loggedIn && m.kind == RequestFor(op)
    ensures Serve(cl, registry, Good(m)) == None <==> HasNoResult(op, cl.stack)
  {
    ServedIsDispatched(cl, registry, m);
    OperatorDispatched(cl.(lines := cl.lines + 1), registry, m, op);
    ArithCrashesExactly(op, cl.stack);
    CalculateCrashes(cl.(lines := cl.lines + 1), Arith(op, cl.stack));
  }

  lemma OthersServed(cl: Client, registry: map<string, TableId>, p: Parsed)
    requires p != Uncaught && (p.Good? ==> Conforms(p.m) && (cl.loggedIn ==> !IsArithmetic(p.m.kind)))
    ensures Serve(cl, registry, p).Some?
  {
    if p.Good? && p.m.kind != LOGIN && cl.loggedIn {
      ServedIsDispatched(cl, registry, p.m);
      HarmlessDispatch(cl.(lines := cl.lines + 1), registry, p.m);
    }
  }

  lemma ServeCrashesExactly(cl: Client, registry: map<string, TableId>, p: Parsed)
    requires p != Uncaught && (p.Good? ==> Conforms(p.m))
    ensures Serve(cl, registry, p) == None <==> IsDeadly(cl, p)
  {
    if p.Good? && cl.loggedIn && IsArithmetic(p.m.kind) {
      ArithmeticServed(cl, registry, p.m, OperatorOf(p.m.kind));
    } else {
      OthersServed(cl, registry, p);
    }
  }

  // ----- steps and runs ---------------------------------------------------

  predicate IsDeadlyAction(s: State, a: Action) {
    a.input.Request? && a.c in s.clients && IsDeadly(s.clients[a.c], Parse(a.input.text))
  }

  lemma ContinueNeverCrashes(v: Variant, cl: Client, registry: map<string, TableId>, store: Store, owner: Option<ClientId>, pick: nat)
    ensures Continue(v, cl, registry, store, owner, pick).1 != Crashes
  {
  }

  lemma ReceiveCrashesExactly(s: State, cl: Client, p: Parsed)
    requires p != Uncaught && (p.Good? ==> Conforms(p.m))
    ensures Receive(s, cl, p).1 == Crashes <==> IsDeadly(cl, p)
    ensures Receive(s, cl, p).1 == Crashes || Receive(s, cl, p).1 == Nothing
  {
    ServeCrashesExactly(cl, s.registry, p);
  }

  lemma MoveCrashesExactly(v: Variant, s: State, a: Action)
    requires Enabled(s, a)
    ensures Move(v, s, a).1 == Crashes <==> IsDeadlyAction(s, a)
  {
    match a.input
    case Connect =>
    case Request(text) =>
      ParsedConforms(text);
      ReceiveCrashesExactly(s, s.clients[a.c], Parse(text));
    case Eof =>
    case Go(pick) =>
      var cl := s.clients[a.c];
      ContinueNeverCrashes(v, cl, s.registry, StoreAt(s, Subject(cl.pc)), OwnerAt(s, Subject(cl.pc)), pick);
  }

  lemma ApplyCrashes(s: State, c: ClientId, m: (Client, Effect))
    requires !s.crashed
    ensures Apply(s, c, m.0, m.1).crashed <==> m.1 == Crashes
  {
  }

  /** In any state, a step brings the server down if and only if it is an arithmetic
      request of a logged-in session whose two topmost entries are out of the range of
      int, overflow, or divide by zero. */
  lemma StepCrashesExactly(v: Variant, s: State, a: Action)
    requires Enabled(s, a)
    ensures Step(v, s, a).crashed <==> IsDeadlyAction(s, a)
  {
    MoveCrashesExactly(v, s, a);
    ApplyCrashes(s, a.c, Move(v, s, a));
  }

  /** A run ends with the server down if and only if its last action is such a request. */
  lemma {:induction false} RunCrashesExactly(v: Variant, s: State, run: seq<Action>)
    requires !s.crashed && Legal(v, s, run)
    ensures run != [] ==> Legal(v, s, run[..|run| - 1])
    ensures After(v, s, run).crashed <==>
              run != [] && IsDeadlyAction(After(v, s, run[..|run| - 1]), run[|run| - 1])
  {
    if run != [] {
      LastAction(v, s, run);
      StepCrashesExactly(v, After(v, s, run[..|run| - 1]), run[|run| - 1]);
    }
  }

  // ----- a run that crashes -----------------------------------------------

  lemma PushStep(v: Variant, s: State, c: ClientId, w: string)
    requires !s.crashed && c in s.clients && s.clients[c].pc == Idle && s.clients[c].loggedIn && IsValue(w)
    ensures Enabled(s, Act(c, Request(PushLine(w))))
    ensures var cl := s.clients[c];
            Step(v, s, Act(c, Request(PushLine(w)))) ==
              s.(clients := s.clients[c := Respond(cl.(lines := cl.lines + 1, stack := cl.stack + [w]), Okay)])
  {
    var cl, m := s.clients[c], Content(PUSH, [w]);
    PushParses(w);
    ServedIsDispatched(cl, s.registry, m);
    RequestStep(v, s, c, PushLine(w), Good(m), Respond(cl.(lines := cl.lines + 1, stack := cl.stack + [w]), Okay));
  }

  lemma ZeroIsZero()
    ensures Stoi("0") == Value(0) && IsValue("0")
  {
    StoiOfToString(0);
    assert ToString(0) == "0";
  }

  lemma UserArrives(v: Variant, c: ClientId) returns (run: seq<Action>)
    ensures Legal(v, EMPTY_SERVER, run)
    ensures var z := After(v, EMPTY_SERVER, run); !z.crashed && c in z.clients && z.clients[c] == LOGGED_IN
  {
    OneArgumentLine(LOGIN, "u");
    run := Arrives(v, EMPTY_SERVER, [], c, "u");
  }

  /** The server can be brought down by anybody: connect, log in, push a zero twice,
      divide. */
  lemma {:induction false} ZeroDivisorCrashes(v: Variant, c: ClientId) returns (run: seq<Action>)
    ensures Legal(v, EMPTY_SERVER, run) && After(v, EMPTY_SERVER, run).crashed
  {
    ZeroIsZero();
    run := UserArrives(v, c);
    run := PushedTwice(v, run, c, "0");
    run := Divides(v, run, c, "0");
  }

  lemma {:induction false} PushedTwice(v: Variant, run: seq<Action>, c: ClientId, w: string) returns (run': seq<Action>)
    requires Legal(v, EMPTY_SERVER, run) && IsValue(w)
    requires var y := After(v, EMPTY_SERVER, run); !y.crashed && c in y.clients && y.clients[c] == LOGGED_IN
    ensures Legal(v, EMPTY_SERVER, run')
    ensures var z := After(v, EMPTY_SERVER, run');
            !z.crashed && c in z.clients && z.clients[c].pc == Idle && z.clients[c].loggedIn && z.clients[c].stack == [w, w]
  {
    var y, a := After(v, EMPTY_SERVER, run), Act(c, Request(PushLine(w)));
    PushStep(v, y, c, w);
    PushStep(v, Step(v, y, a), c, w);
    ExtendTwice(v, EMPTY_SERVER, run, a, a);
    run' := run + [a, a];
  }

  lemma {:induction false} Divides(v: Variant, run: seq<Action>, c: ClientId, w: string) returns (run': seq<Action>)
    requires Legal(v, EMPTY_SERVER, run) && Stoi(w) == Value(0)
    requires var y := After(v, EMPTY_SERVER, run);
             !y.crashed && c in y.clients && y.clients[c].pc == Idle && y.clients[c].loggedIn && y.clients[c].stack == [w, w]
    ensures Legal(v, EMPTY_SERVER, run') && After(v, EMPTY_SERVER, run').crashed
  {
    var y, a := After(v, EMPTY_SERVER, run), Act(c, Request(Line(Content(DIV, []))));
    BareParses(DIV);
    StepCrashesExactly(v, y, a);
    Extend(v, EMPTY_SERVER, run, a);
    run' := run + [a];
  }
}
