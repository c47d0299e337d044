/** What stacks and tables can hold: every value fits the reply that carries it. */
module Values {
  import opened Codec
  import opened Digits
  import opened Engine
  import opened Messages
  import opened StackMachine
  import opened Tables
  import opened Text
  import opened Wrappers

  /** The longest value a line of at most 1024 characters can carry. */
  const MAX_VALUE_LEN := 1018

  predicate IsValue(v: string) {
    IsWord(v) && '\0' !in v && |v| <= MAX_VALUE_LEN
  }

  predicate AllValues(vs: seq<string>) {
    forall i | 0 <= i < |vs| :: IsValue(vs[i])
  }

  predicate RowOk(r: Row) {
    forall k | k in r :: IsValue(r[k])
  }

  predicate StoreOk(s: Store) {
    RowOk(s.committed) && RowOk(s.proposed)
  }

  predicate ValuesOk(s: State) {
    && (forall c | c in s.clients :: AllValues(s.clients[c].stack))
    && (forall t | t in s.tables :: StoreOk(s.tables[t].store))
  }

  // ----- where values come from -------------------------------------------

  /** A PUSH that was decoded carries exactly one value, and it is short enough. */
  lemma PushedIsValue(text: string)
    requires Parse(text).Good? && Parse(text).m.kind == PUSH
    ensures |Parse(text).m.args| == 1 && IsValue(Parse(text).m.args[0])
  {
    var m := Parse(text).m;
    DecodedIsShort(CString(text), Content(NONE, []));
    CStringHasNoNul(text);
    ArgumentsLack(CString(text), '\0');
    assert '\0' !in m.args[0];
    PushLength(m);
  }

  /** No argument has a character its line has not. */
  lemma ArgumentsLack(s: string, c: char)
    requires c !in s && DecodeInto(s, Content(NONE, [])).0 == Done
    requires !CarriesQuotedText(DecodeInto(s, Content(NONE, [])).1.kind)
    ensures var args := DecodeInto(s, Content(NONE, [])).1.args;
            forall i | 0 <= i < |args| :: c !in args[i]
  {
    var body := SkipSpaces(s);
    SliceLacks(s, SpaceLength(s), c);
    SliceLacks(body, WordLength(body), c);
    SliceLacks(body[WordLength(body)..], LineLength(body[WordLength(body)..]), c);
    WordsLack(TextAfterType(s), c);
    ArgumentsAre(KindOf(TypeWord(s)), s);
  }

  lemma ArgumentsAre(k: MessageType, s: string)
    requires DecodeAs(k, s, Content(NONE, [])).0 == Done && !CarriesQuotedText(k)
    ensures DecodeAs(k, s, Content(NONE, [])).1 == Content(k, Words(TextAfterType(s)))
  {
  }

  lemma PushLength(m: Content)
    requires m.kind == PUSH && Conforms(m) && AllWords(m.args) && |Line(m)| <= MAX_ENCODED_LEN
    requires |m.args| == 1 ==> '\0' !in m.args[0]
    ensures |m.args| == 1 && IsValue(m.args[0])
  {
    assert m.args[1..] == [];
    assert Spread(m.args) == " " + m.args[0] + "";
  }

  lemma ArithGivesValues(op: ArithOp, stack: seq<string>)
    requires AllValues(stack)
    ensures !Arith(op, stack).Crash? ==> AllValues(Arith(op, stack).stack)
  {
    if |stack| >= 2 {
      ConcludeGivesValues(op, stack, Classify(Stoi(stack[|stack| - 2]), Stoi(stack[|stack| - 1])));
      StoiIsInt(stack[|stack| - 1]);
    }
  }

  lemma ConcludeGivesValues(op: ArithOp, stack: seq<string>, o: Operands)
    requires |stack| >= 2 && AllValues(stack)
    requires o.LeftFails? ==> IsInt(o.right)
    ensures !Conclude(op, stack, o).Crash? ==> AllValues(Conclude(op, stack, o).stack)
  {
    match o
    case LeftFails(right) =>
      ToStringIsShortWord(right);
    case Both(left, right) =>
      var x := Compute(op, left, right);
      if x.Some? {
        ToStringIsShortWord(x.value);
      }
    case _ =>
  }

  /** What a parsed line may bring in. */
  predicate ArgsOk(p: Parsed) {
    p.Good? && p.m.kind == PUSH ==> |p.m.args| == 1 && IsValue(p.m.args[0])
  }

  lemma DispatchKeepsValues(cl: Client, registry: map<string, TableId>, m: Content)
    requires AllValues(cl.stack) && ArgsOk(Good(m))
    ensures Dispatch(cl, registry, m).Some? ==> AllValues(Dispatch(cl, registry, m).value.stack)
  {
    match m.kind
    case ADD => ArithGivesValues(Add, cl.stack); CalculateKeepsValues(cl, Arith(Add, cl.stack));
    case SUB => ArithGivesValues(Sub, cl.stack); CalculateKeepsValues(cl, Arith(Sub, cl.stack));
    case MUL => ArithGivesValues(Mul, cl.stack); CalculateKeepsValues(cl, Arith(Mul, cl.stack));
    case DIV => ArithGivesValues(Div, cl.stack); CalculateKeepsValues(cl, Arith(Div, cl.stack));
    case TOP => TopKeepsStack(cl);
    case _ =>
  }

  lemma CalculateKeepsValues(cl: Client, r: Result)
    requires !r.Crash? ==> AllValues(r.stack)
    ensures Calculate(cl, r).Some? ==> AllValues(Calculate(cl, r).value.stack)
  {
  }

  lemma TopKeepsStack(cl: Client)
    ensures Top(cl).stack == cl.stack
  {
  }

  lemma ServeKeepsValues(cl: Client, registry: map<string, TableId>, p: Parsed)
    requires AllValues(cl.stack) && ArgsOk(p)
    ensures Serve(cl, registry, p).Some? ==> AllValues(Serve(cl, registry, p).value.stack)
  {
    var counted := cl.(lines := cl.lines + 1);
    if p.Good? && p.m.kind != LOGIN && cl.loggedIn {
      ServedIsDispatched(cl, registry, p.m);
      DispatchKeepsValues(counted, registry, p.m);
    }
  }

  lemma FetchedIsValue(s: Store, k: string)
    requires StoreOk(s) && HasKey(s, k)
    ensures IsValue(Fetch(s, k).value)
  {
  }

  lemma ContinueKeepsStack(v: Variant, cl: Client, registry: map<string, TableId>, store: Store, owner: Option<ClientId>, pick: nat)
    requires AllValues(cl.stack) && StoreOk(store)
    ensures AllValues(Continue(v, cl, registry, store, owner, pick).0.stack)
  {
    if (cl.pc.AutoRun? || cl.pc.TxRun?) && cl.pc.op.GetOp? && HasKey(store, cl.pc.op.key) {
      FetchedIsValue(store, cl.pc.op.key);
    }
  }

  /** A value written to a table comes off the stack. */
  lemma ContinuePutsValue(v: Variant, cl: Client, registry: map<string, TableId>, store: Store, owner: Option<ClientId>, pick: nat)
    requires AllValues(cl.stack)
    requires (cl.pc.AutoRun? || cl.pc.TxRun?) && cl.pc.op.SetOp? ==> cl.stack != []
    ensures var e := Continue(v, cl, registry, store, owner, pick).1;
            e.Edits? && e.e.PutEntry? ==> IsValue(e.e.value)
  {
  }

  lemma ApplyKeepsValues(s: State, c: ClientId, cl: Client, e: Effect)
    requires ValuesOk(s) && AllValues(cl.stack)
    requires e.Edits? && e.e.PutEntry? ==> IsValue(e.e.value)
    ensures ValuesOk(Apply(s, c, cl, e))
  {
    if e.Edits? && e.t in s.tables {
      EditedIsOk(s.tables[e.t].store, e.e);
    }
  }

  lemma EditedIsOk(s: Store, e: Edit)
    requires StoreOk(s) && (e.PutEntry? ==> IsValue(e.value))
    ensures StoreOk(Edited(s, e))
  {
  }

  // ----- every reachable state --------------------------------------------

  /** A SET under way has its value on the stack. */
  predicate SetsHaveValues(s: State) {
    forall c | c in s.clients :: SetHasValue(s.clients[c])
  }

  predicate SetHasValue(cl: Client) {
    (cl.pc.AutoWait? || cl.pc.AutoRun? || cl.pc.TxAcquire? || cl.pc.TxRun?) && cl.pc.op.SetOp? ==> cl.stack != []
  }

  lemma ServeKeepsSet(cl: Client, registry: map<string, TableId>, p: Parsed)
    requires cl.pc == Idle
    ensures Serve(cl, registry, p).Some? ==> SetHasValue(Serve(cl, registry, p).value)
  {
    var counted := cl.(lines := cl.lines + 1);
    if p.Good? && p.m.kind != LOGIN && cl.loggedIn {
      ServedIsDispatched(cl, registry, p.m);
      DispatchKeepsSet(counted, registry, p.m);
    }
  }

  lemma DispatchKeepsSet(cl: Client, registry: map<string, TableId>, m: Content)
    requires cl.pc == Idle
    ensures Dispatch(cl, registry, m).Some? ==> SetHasValue(Dispatch(cl, registry, m).value)
  {
    match m.kind
    case ADD => CalculateKeepsSet(cl, Arith(Add, cl.stack));
    case SUB => CalculateKeepsSet(cl, Arith(Sub, cl.stack));
    case MUL => CalculateKeepsSet(cl, Arith(Mul, cl.stack));
    case DIV => CalculateKeepsSet(cl, Arith(Div, cl.stack));
    case _ => DispatchKeepsSetElse(cl, registry, m);
  }

  lemma DispatchKeepsSetElse(cl: Client, registry: map<string, TableId>, m: Content)
    requires cl.pc == Idle && m.kind !in {ADD, SUB, MUL, DIV}
    ensures Dispatch(cl, registry, m).Some? ==> SetHasValue(Dispatch(cl, registry, m).value)
  {
  }

  lemma CalculateKeepsSet(cl: Client, r: Result)
    requires cl.pc == Idle
    ensures Calculate(cl, r).Some? ==> SetHasValue(Calculate(cl, r).value)
  {
  }

  lemma ContinueKeepsSet(v: Variant, cl: Client, registry: map<string, TableId>, store: Store, owner: Option<ClientId>, pick: nat)
    requires SetHasValue(cl)
    ensures SetHasValue(Continue(v, cl, registry, store, owner, pick).0)
  {
    if cl.pc.AutoWait? || cl.pc.TxAcquire? {
      AcquireKeepsSet(v, cl, registry, store, owner, pick);
    } else {
      ElseNoSet(v, cl, registry, store, owner, pick);
    }
  }

  lemma AcquireKeepsSet(v: Variant, cl: Client, registry: map<string, TableId>, store: Store, owner: Option<ClientId>, pick: nat)
    requires SetHasValue(cl) && (cl.pc.AutoWait? || cl.pc.TxAcquire?)
    ensures SetHasValue(Continue(v, cl, registry, store, owner, pick).0)
  {
  }

  lemma ElseNoSet(v: Variant, cl: Client, registry: map<string, TableId>, store: Store, owner: Option<ClientId>, pick: nat)
    requires !cl.pc.AutoWait? && !cl.pc.TxAcquire?
    ensures IsNoAccess(Continue(v, cl, registry, store, owner, pick).0.pc)
  {
    match cl.pc
    case AutoRun(op, t) =>
    case AutoCommit(t) =>
    case AutoUnlock(t, r) =>
    case TxRun(op, t) => ThrowIsNoAccess(cl, KeyNotFound);
    case Stray(t) => ThrowIsNoAccess(cl, KeyNotFound);
    case Releasing(_, _, _, _) =>
    case CreateUnlock(_) => ThrowIsNoAccess(cl, TableExists);
    case _ =>
  }

  predicate IsNoAccess(pc: Pc) {
    !pc.AutoWait? && !pc.AutoRun? && !pc.TxAcquire? && !pc.TxRun?
  }

  lemma ThrowIsNoAccess(cl: Client, why: Reason)
    ensures IsNoAccess(Throw(cl, why).pc)
  {
  }

  lemma ResumeKeepsValues(v: Variant, s: State, c: ClientId, pick: nat)
    requires ValuesOk(s) && SetsHaveValues(s) && c in s.clients
    ensures var (cl, e) := Resume(v, s, s.clients[c], pick);
            AllValues(cl.stack) && SetHasValue(cl) && (e.Edits? && e.e.PutEntry? ==> IsValue(e.e.value))
  {
    var cl := s.clients[c];
    var store, owner := StoreAt(s, Subject(cl.pc)), OwnerAt(s, Subject(cl.pc));
    assert SetHasValue(cl);
    ContinueKeepsStack(v, cl, s.registry, store, owner, pick);
    ContinuePutsValue(v, cl, s.registry, store, owner, pick);
    ContinueKeepsSet(v, cl, s.registry, store, owner, pick);
  }

  lemma RequestKeepsValues(s: State, c: ClientId, p: Parsed)
    requires ValuesOk(s) && SetsHaveValues(s) && c in s.clients && s.clients[c].pc == Idle && ArgsOk(p)
    ensures var (cl, e) := Receive(s, s.clients[c], p);
            AllValues(cl.stack) && SetHasValue(cl) && !e.Edits?
  {
    ServeKeepsValues(s.clients[c], s.registry, p);
    ServeKeepsSet(s.clients[c], s.registry, p);
  }

  lemma LineKeepsValues(s: State, c: ClientId, text: string)
    requires ValuesOk(s) && SetsHaveValues(s) && c in s.clients && s.clients[c].pc == Idle
    ensures var (cl, e) := Receive(s, s.clients[c], Parse(text));
            AllValues(cl.stack) && SetHasValue(cl) && !e.Edits?
  {
    var p := Parse(text);
    assert ArgsOk(p) by {
      if p.Good? && p.m.kind == PUSH {
        PushedIsValue(text);
      }
    }
    RequestKeepsValues(s, c, p);
  }

  /** A move whose client and effect carry only values. */
  ghost predicate CarriesValues(m: (Client, Effect)) {
    AllValues(m.0.stack) && SetHasValue(m.0) && (m.1.Edits? && m.1.e.PutEntry? ==> IsValue(m.1.e.value))
  }

  lemma MoveKeepsValues(v: Variant, s: State, a: Action)
    requires ValuesOk(s) && SetsHaveValues(s) && Enabled(s, a)
    ensures CarriesValues(Move(v, s, a))
  {
    match a.input {
      case Connect =>
      case Request(text) =>
        LineKeepsValues(s, a.c, text);
      case Eof =>
      case Go(pick) =>
        ResumeKeepsValues(v, s, a.c, pick);
    }
  }

  lemma StepKeepsValues(v: Variant, s: State, a: Action)
    requires ValuesOk(s) && SetsHaveValues(s) && Enabled(s, a)
    ensures ValuesOk(Step(v, s, a)) && SetsHaveValues(Step(v, s, a))
  {
    MoveKeepsValues(v, s, a);
    CarriedIntoState(s, a.c, Move(v, s, a));
  }

  lemma CarriedIntoState(s: State, c: ClientId, m: (Client, Effect))
    requires ValuesOk(s) && SetsHaveValues(s) && CarriesValues(m)
    ensures ValuesOk(Apply(s, c, m.0, m.1)) && SetsHaveValues(Apply(s, c, m.0, m.1))
  {
    ApplyKeepsValues(s, c, m.0, m.1);
    ApplyKeepsSets(s, c, m.0, m.1);
  }

  lemma ApplyKeepsSets(s: State, c: ClientId, cl: Client, e: Effect)
    requires SetsHaveValues(s) && SetHasValue(cl)
    ensures SetsHaveValues(Apply(s, c, cl, e))
  {
    assert Apply(s, c, cl, e).clients == s.clients[c := cl];
  }

  /** In every reachable state, of the code as written too, each value on a stack
      and in a table is a nonempty word of at most 1018 characters. */
  lemma {:induction false} ValuesOnEveryRun(v: Variant, s: State, run: seq<Action>)
    requires ValuesOk(s) && SetsHaveValues(s) && Legal(v, s, run)
    ensures ValuesOk(After(v, s, run)) && SetsHaveValues(After(v, s, run))
  {
    if run != [] {
      var n := |run| - 1;
      ValuesOnEveryRun(v, s, run[..n]);
      StepKeepsValues(v, After(v, s, run[..n]), run[n]);
    }
  }

  lemma ValueFits(v: string)
    requires IsValue(v)
    ensures DataFits(v)
    ensures forall prior :: DecodeInto(Line(Content(DATA, [v])), prior) == (Done, Content(DATA, [v]))
  {
    assert Spread([v]) == " " + v + "" by {
      assert [v][1..] == [];
    }
    forall prior ensures DecodeInto(Line(Content(DATA, [v])), prior) == (Done, Content(DATA, [v])) {
      RoundTrip(Content(DATA, [v]), prior);
    }
  }

  /** TOP never gets into the dispatcher's InvalidMessage handler: in every
      reachable state its reply fits, and a reader decodes it to the very value. */
  lemma {:induction false} TopIsAlwaysAnswered(v: Variant, s: State, run: seq<Action>, c: ClientId)
    requires ValuesOk(s) && SetsHaveValues(s) && Legal(v, s, run)
    requires var z := After(v, s, run); c in z.clients && z.clients[c].stack != []
    ensures var cl := After(v, s, run).clients[c];
            var top := cl.stack[|cl.stack| - 1];
            && Top(cl) == Respond(cl, Datum(top))
            && |Line(Content(DATA, [top]))| <= MAX_ENCODED_LEN
            && forall prior :: DecodeInto(Line(Content(DATA, [top])), prior) == (Done, Content(DATA, [top]))
  {
    ValuesOnEveryRun(v, s, run);
    var cl := After(v, s, run).clients[c];
    assert IsValue(cl.stack[|cl.stack| - 1]);
    ValueFits(cl.stack[|cl.stack| - 1]);
  }
}
