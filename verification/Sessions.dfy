/** One session seen from its client: login first, one reply per line, and a
    stack machine that computes. */
module Sessions {
  import opened Codec
  import opened Digits
  import opened Engine
  import opened Messages
  import opened Requests
  import opened StackMachine
  import opened Tables
  import opened Values
  import opened Wrappers

  // ----- one reply per line -----------------------------------------------

  /** The last line taken from the socket has not been answered yet. */
  predicate Owes(pc: Pc) {
    match pc
    case Idle => false
    case Closed => false
    case CreateUnlock(failed) => failed
    case Releasing(_, _, _, ending) => ending.reply.Some?
    case _ => true
  }

  /** Replies keep pace with lines, and nothing but a LOGIN leaves a trace on a
      session that has not logged in. */
  predicate InStep(cl: Client) {
    && cl.lines == |cl.sent| + (if Owes(cl.pc) then 1 else 0)
    && (!cl.loggedIn ==>
          cl.stack == [] && !cl.inTx && cl.locked == {} && (cl.pc == Idle || cl.pc == Closed))
  }

  lemma AbortInStep(cl: Client, e: Ending)
    requires cl.lines == |cl.sent| + (if e.reply.Some? then 1 else 0)
    requires !cl.loggedIn ==> cl.stack == [] && !cl.inTx
    ensures InStep(Abort(cl, e)) && Abort(cl, e).sent <= cl.sent + (if e.reply.Some? then [e.reply.value] else [])
    ensures cl.sent <= Abort(cl, e).sent
  {
  }

  predicate StepsFrom(cl: Client, cl': Client) {
    InStep(cl') && cl.sent <= cl'.sent && |cl'.sent| <= |cl.sent| + 1 && cl.lines <= cl'.lines
  }

  lemma CalculateInStep(cl: Client, r: Result)
    requires cl.pc == Idle && cl.loggedIn && cl.lines == |cl.sent| + 1
    ensures Calculate(cl, r).Some? ==> StepsFrom(cl, Calculate(cl, r).value)
  {
  }

  lemma DispatchInStep(cl: Client, registry: map<string, TableId>, m: Content)
    requires cl.pc == Idle && cl.loggedIn && cl.lines == |cl.sent| + 1
    ensures Dispatch(cl, registry, m).Some? ==> StepsFrom(cl, Dispatch(cl, registry, m).value)
  {
    match m.kind
    case ADD => CalculateInStep(cl, Arith(Add, cl.stack));
    case SUB => CalculateInStep(cl, Arith(Sub, cl.stack));
    case MUL => CalculateInStep(cl, Arith(Mul, cl.stack));
    case DIV => CalculateInStep(cl, Arith(Div, cl.stack));
    case _ =>
  }

  lemma ServeInStep(cl: Client, registry: map<string, TableId>, p: Parsed)
    requires InStep(cl) && cl.pc == Idle
    ensures Serve(cl, registry, p).Some? ==> StepsFrom(cl, Serve(cl, registry, p).value)
    ensures Serve(cl, registry, p).Some? ==> Serve(cl, registry, p).value.lines == cl.lines + 1
  {
    var counted := cl.(lines := cl.lines + 1);
    if p.Good? && p.m.kind != LOGIN && cl.loggedIn {
      ServedIsDispatched(cl, registry, p.m);
      DispatchInStep(counted, registry, p.m);
      DispatchKeepsLines(counted, registry, p.m);
    }
  }

  lemma DispatchKeepsLines(cl: Client, registry: map<string, TableId>, m: Content)
    ensures Dispatch(cl, registry, m).Some? ==> Dispatch(cl, registry, m).value.lines == cl.lines
  {
    match m.kind
    case ADD => CalculateKeepsLines(cl, Arith(Add, cl.stack));
    case SUB => CalculateKeepsLines(cl, Arith(Sub, cl.stack));
    case MUL => CalculateKeepsLines(cl, Arith(Mul, cl.stack));
    case DIV => CalculateKeepsLines(cl, Arith(Div, cl.stack));
    case _ =>
  }

  lemma CalculateKeepsLines(cl: Client, r: Result)
    ensures Calculate(cl, r).Some? ==> Calculate(cl, r).value.lines == cl.lines
  {
  }

  lemma ContinueInStep(v: Variant, cl: Client, registry: map<string, TableId>, store: Store, owner: Option<ClientId>, pick: nat)
    requires InStep(cl)
    ensures StepsFrom(cl, Continue(v, cl, registry, store, owner, pick).0)
  {
  }

  lemma MoveInStep(v: Variant, s: State, a: Action)
    requires Enabled(s, a) && (a.c in s.clients ==> InStep(s.clients[a.c]))
    ensures InStep(Move(v, s, a).0)
    ensures a.c in s.clients ==> StepsFrom(s.clients[a.c], Move(v, s, a).0)
  {
    match a.input
    case Connect =>
    case Request(text) => ServeInStep(s.clients[a.c], s.registry, Parse(text));
    case Eof => AbortInStep(s.clients[a.c], Ending(None, true));
    case Go(pick) =>
      var cl := s.clients[a.c];
      ContinueInStep(v, cl, s.registry, StoreAt(s, Subject(cl.pc)), OwnerAt(s, Subject(cl.pc)), pick);
  }

  predicate AllInStep(s: State) {
    forall c | c in s.clients :: InStep(s.clients[c])
  }

  lemma StepInStep(v: Variant, s: State, a: Action)
    requires Enabled(s, a) && AllInStep(s)
    ensures AllInStep(Step(v, s, a))
    ensures forall c | c in s.clients :: c in Step(v, s, a).clients && StepsFrom(s.clients[c], Step(v, s, a).clients[c])
  {
    MoveInStep(v, s, a);
    ApplyClients(s, a.c, Move(v, s, a));
  }

  lemma ApplyClients(s: State, c: ClientId, m: (Client, Effect))
    ensures Apply(s, c, m.0, m.1).clients == s.clients[c := m.0]
  {
  }

  /** Lock-step, over every run and for the code as written too: a session has
      sent one reply per line it has taken, bar the line it is working on; replies
      are only ever appended; and before a LOGIN nothing touches stack, tables or
      transaction state. */
  lemma {:induction false} SessionsInLockStep(v: Variant, s: State, run: seq<Action>)
    requires Legal(v, s, run) && AllInStep(s)
    ensures AllInStep(After(v, s, run))
    ensures forall c | c in s.clients ::
              c in After(v, s, run).clients && s.clients[c].sent <= After(v, s, run).clients[c].sent
  {
    if run != [] {
      var n := |run| - 1;
      SessionsInLockStep(v, s, run[..n]);
      StepInStep(v, After(v, s, run[..n]), run[n]);
    }
  }

  // ----- expressions over the wire ----------------------------------------

  /** Feeding a list of messages to a machine that may give up. */
  function Feed<S, M>(f: (S, M) -> Option<S>, s: S, ms: seq<M>): Option<S> {
    if ms == [] then Some(s)
    else
      var n := |ms| - 1;
      match Feed(f, s, ms[..n])
      case None => None
      case Some(mid) => f(mid, ms[n])
  }

  lemma {:induction false} FeedAppend<S, M>(f: (S, M) -> Option<S>, s: S, xs: seq<M>, ys: seq<M>)
    requires Feed(f, s, xs).Some?
    ensures Feed(f, s, xs + ys) == Feed(f, Feed(f, s, xs).value, ys)
  {
    if ys == [] {
      assert xs + ys == xs;
    } else {
      var n := |ys| - 1;
      FeedAppend(f, s, xs, ys[..n]);
      assert (xs + ys)[..|xs| + n] == xs + ys[..n];
      assert (xs + ys)[|xs| + n] == ys[n];
    }
  }

  lemma FeedOne<S, M>(f: (S, M) -> Option<S>, s: S, m: M)
    ensures Feed(f, s, [m]) == f(s, m)
  {
    assert [m][..0] == [];
  }

  lemma FeedPostorder<S, M>(f: (S, M) -> Option<S>, s: S, mid: S, top: S, xs: seq<M>, ys: seq<M>, m: M)
    requires Feed(f, s, xs) == Some(mid) && Feed(f, mid, ys) == Some(top)
    ensures Feed(f, s, xs + ys + [m]) == f(top, m)
  {
    FeedAppend(f, s, xs, ys);
    FeedAppend(f, s, xs + ys, [m]);
    FeedOne(f, top, m);
  }

  /** An idle session takes a message, sent as the line that encodes it. */
  function Take(cl: Client, registry: map<string, TableId>, m: Content): Option<Client> {
    if cl.pc == Idle then Serve(cl, registry, Parse(Line(m))) else None
  }

  function Session(registry: map<string, TableId>): (Client, Content) -> Option<Client> {
    (cl, m) => Take(cl, registry, m)
  }

  /** All literals are words a PUSH can carry. */
  predicate Sendable(e: Expr) {
    match e
    case Literal(w) => IsValue(w)
    case Operation(_, l, r) => Sendable(l) && Sendable(r)
  }

  /** A session after `n` more lines, all answered OK, with `w` on top of its stack. */
  ghost predicate Computed(cl: Client, cl': Client, n: nat, w: string) {
    cl' == cl.(stack := cl.stack + [w], lines := cl.lines + n, sent := cl'.sent) &&
    |cl'.sent| == |cl.sent| + n && cl.sent <= cl'.sent &&
    forall i | |cl.sent| <= i < |cl'.sent| :: cl'.sent[i] == Okay
  }

  lemma OperatorServed(cl: Client, registry: map<string, TableId>, op: ArithOp)
    requires cl.pc == Idle && cl.loggedIn
    ensures Serve(cl, registry, Good(Content(RequestFor(op), []))) ==
              Calculate(cl.(lines := cl.lines + 1), Arith(op, cl.stack))
  {
    var m := Content(RequestFor(op), []);
    ServedIsDispatched(cl, registry, m);
    OperatorDispatched(cl.(lines := cl.lines + 1), registry, m, op);
  }

  lemma ArithOfTwo(op: ArithOp, stack: seq<string>, l: Conversion, r: Conversion)
    requires |stack| == 2 && Stoi(stack[0]) == l && Stoi(stack[1]) == r
    ensures Arith(op, stack) == Conclude(op, stack, Classify(l, r))
  {
  }

  lemma ArithOfBoth(op: ArithOp, stack: seq<string>, l: Conversion, r: Conversion)
    requires |stack| >= 2 && l.Value? && r.Value? && Compute(op, l.n, r.n).Some?
    ensures Conclude(op, stack, Classify(l, r)) == Next(stack[..|stack| - 2] + [ToString(Compute(op, l.n, r.n).value)])
  {
  }

  lemma ArithOnTop(op: ArithOp, below: seq<string>, l: string, r: string)
    requires Stoi(l).Value? && Stoi(r).Value? && Compute(op, Stoi(l).n, Stoi(r).n).Some?
    ensures Arith(op, below + [l] + [r]) == Next(below + [ToString(Compute(op, Stoi(l).n, Stoi(r).n).value)])
  {
    var stack := below + [l] + [r];
    assert stack[..|stack| - 2] == below;
    ArithOfBoth(op, stack, Stoi(l), Stoi(r));
  }

  lemma OperatorTaken(cl: Client, registry: map<string, TableId>, op: ArithOp, below: seq<string>, l: string, r: string)
    requires cl.pc == Idle && cl.loggedIn && cl.stack == below + [l] + [r]
    requires Stoi(l).Value? && Stoi(r).Value? && Compute(op, Stoi(l).n, Stoi(r).n).Some?
    ensures Take(cl, registry, Content(RequestFor(op), [])) ==
              Some(Respond(cl.(lines := cl.lines + 1, stack := below + [ToString(Compute(op, Stoi(l).n, Stoi(r).n).value)]), Okay))
  {
    BareParses(RequestFor(op));
    OperatorServed(cl, registry, op);
    ArithOnTop(op, below, l, r);
  }

  lemma PushTaken(cl: Client, registry: map<string, TableId>, w: string)
    requires cl.pc == Idle && cl.loggedIn && IsValue(w)
    ensures Take(cl, registry, Content(PUSH, [w])) == Some(Respond(cl.(lines := cl.lines + 1, stack := cl.stack + [w]), Okay))
  {
    PushParses(w);
    PushServed(cl, registry, Content(PUSH, [w]));
  }

  lemma PushServed(cl: Client, registry: map<string, TableId>, m: Content)
    requires cl.loggedIn && m.kind == PUSH && |m.args| == 1
    ensures Serve(cl, registry, Good(m)) == Some(Respond(cl.(lines := cl.lines + 1, stack := cl.stack + [m.args[0]]), Okay))
  {
    ServedIsDispatched(cl, registry, m);
  }

  /** The stack machine computes: for every expression tree without overflow, zero
      divisor or unreadable literal, its requests in postorder, sent as lines to a
      logged-in session, are all answered OK and leave the prior stack plus one
      entry that denotes the value of the tree. */
  lemma {:induction false} ExpressionsCompute(cl: Client, registry: map<string, TableId>, e: Expr) returns (cl': Client, w: string)
    requires cl.pc == Idle && cl.loggedIn && Sendable(e) && Meaning(e).Some?
    ensures Feed(Session(registry), cl, Program(e)) == Some(cl')
    ensures Computed(cl, cl', |Program(e)|, w)
    ensures Stoi(w) == Value(Meaning(e).value)
    ensures e.Operation? ==> w == ToString(Meaning(e).value)
    decreases e
  {
    match e
    case Literal(text) =>
      w := text;
      PushTaken(cl, registry, text);
      FeedOne(Session(registry), cl, Content(PUSH, [text]));
      cl' := Respond(cl.(lines := cl.lines + 1, stack := cl.stack + [text]), Okay);
    case Operation(op, l, r) =>
      MeaningComputes(e);
      var mid, x := ExpressionsCompute(cl, registry, l);
      var top, y := ExpressionsCompute(mid, registry, r);
      w := ToString(Meaning(e).value);
      StoiOfToString(Meaning(e).value);
      cl' := OperationComputes(cl, mid, top, registry, op, Program(l), Program(r), x, y);
  }

  /** The operator that closes an expression, after both operands. */
  lemma OperationComputes(cl: Client, mid: Client, top: Client, registry: map<string, TableId>,
                          op: ArithOp, xs: seq<Content>, ys: seq<Content>, x: string, y: string) returns (cl': Client)
    requires cl.pc == Idle && cl.loggedIn
    requires Feed(Session(registry), cl, xs) == Some(mid) && Computed(cl, mid, |xs|, x)
    requires Feed(Session(registry), mid, ys) == Some(top) && Computed(mid, top, |ys|, y)
    requires Stoi(x).Value? && Stoi(y).Value? && Compute(op, Stoi(x).n, Stoi(y).n).Some?
    ensures Feed(Session(registry), cl, xs + ys + [Content(RequestFor(op), [])]) == Some(cl')
    ensures Computed(cl, cl', |xs| + |ys| + 1, ToString(Compute(op, Stoi(x).n, Stoi(y).n).value))
  {
    var w := ToString(Compute(op, Stoi(x).n, Stoi(y).n).value);
    OperatorTaken(top, registry, op, cl.stack, x, y);
    cl' := Respond(top.(lines := top.lines + 1, stack := cl.stack + [w]), Okay);
    FeedPostorder(Session(registry), cl, mid, top, xs, ys, Content(RequestFor(op), []));
    ComputedJoins(cl, mid, top, cl', |xs|, |ys|, x, y, w);
  }

  lemma ComputedJoins(cl: Client, mid: Client, top: Client, cl': Client, m: nat, n: nat, x: string, y: string, w: string)
    requires Computed(cl, mid, m, x) && Computed(mid, top, n, y) && cl.pc == Idle
    requires cl' == Respond(top.(lines := top.lines + 1, stack := cl.stack + [w]), Okay)
    ensures Computed(cl, cl', m + n + 1, w)
  {
  }
}
