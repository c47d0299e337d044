/** The manual of the server: what every request does, told as one action. A request
    that is not disturbed by others, and need not wait, does just that: its line is taken
    apart, its locks are taken and given back, its tables committed or rolled back one by
    one, its reply is sent, and all this adds up to what the manual says. */
module Manual {
  import opened Alone
  import opened Codec
  import opened Crashes
  import opened Digits
  import opened Engine
  import opened Grammar
  import opened Holdings
  import opened Messages
  import opened Runs
  import opened StackMachine
  import opened Tables
  import opened Text
  import opened Wrappers

  // ----- the manual -------------------------------------------------------

  /** The client is now `me`, has taken one line more, and has been sent one reply more. */
  function Told(s: State, c: ClientId, me: Client, r: Reply): State
    requires c in s.clients
  {
    s.(clients := s.clients[c := me.(lines := s.clients[c].lines + 1, sent := s.clients[c].sent + [r])])
  }

  /** The tables of a transaction that ends: what was proposed is committed, or dropped,
      and nobody holds them any more. */
  function Freed(s: State, held: set<TableId>, commit: bool): State {
    s.(tables := map t | t in s.tables ::
         if t !in held then s.tables[t]
         else
           var row, put := s.tables[t].store.committed, s.tables[t].store.proposed;
           TableRecord(s.tables[t].name, None, if commit then Store(row + put, put) else Store(row, map[])))
  }

  /** The request is refused, and a transaction, if there is one, has failed; the session
      goes on, or is over. */
  function Refused(s: State, c: ClientId, me: Client, r: Reply, over: bool): State
    requires c in s.clients
  {
    Told(if me.inTx then Freed(s, me.locked, false) else s, c,
         me.(pc := if over then Closed else Idle, inTx := false, locked := {}), r)
  }

  function Sorry(s: State, c: ClientId, me: Client, why: Reason): State
    requires c in s.clients
  {
    Refused(s, c, me, Failed(why), false)
  }

  /** ADD, SUB, MUL, DIV, once the two topmost entries have been converted; None if the
      process ends. */
  function Converted(s: State, c: ClientId, me: Client, op: ArithOp, left: Conversion, right: Conversion): Option<State>
    requires c in s.clients && |me.stack| >= 2
  {
    var n := |me.stack|;
    if right.InvalidArgument? then Some(Sorry(s, c, me, OnStack(NotAnInteger)))
    else if right.OutOfRange? || left.OutOfRange? then None
    else if left.InvalidArgument? then Some(Sorry(s, c, me.(stack := me.stack[..n - 1] + [ToString(right.n)]), OnStack(NotAnInteger)))
    else if op == Div && right.n == 0 then None
    else
      var x := Exact(op, left.n, right.n);
      if -0x8000_0000 <= x <= 0x7fff_ffff then Some(Told(s, c, me.(stack := me.stack[..n - 2] + [ToString(x)]), Okay)) else None
  }

  function Calculation(s: State, c: ClientId, me: Client, op: ArithOp): Option<State>
    requires c in s.clients
  {
    var n := |me.stack|;
    if n < 2 then Some(Sorry(s, c, me, OnStack(TooFewOperands(op))))
    else Converted(s, c, me, op, Stoi(me.stack[n - 2]), Stoi(me.stack[n - 1]))
  }

  function Creating(s: State, c: ClientId, me: Client, name: string, id: TableId): State
    requires c in s.clients
  {
    if name in s.registry then Sorry(s, c, me, TableExists)
    else Told(s.(registry := s.registry[name := id], tables := s.tables[id := TableRecord(name, None, Store(map[], map[]))]), c, me, Okay)
  }

  /** Registered names lead to tables. */
  predicate NamesTables(s: State) {
    forall n | n in s.registry :: s.registry[n] in s.tables
  }

  /** SET: the top of the stack goes to the table, committed at once outside transactions. */
  function Setting(s: State, c: ClientId, me: Client, name: string, k: string): State
    requires c in s.clients && NamesTables(s)
  {
    if me.stack == [] then Sorry(s, c, me, NoValueOnStack)
    else if name !in s.registry then Sorry(s, c, me, TableNotFound)
    else
      var t, n := s.registry[name], |me.stack| - 1;
      var tb := s.tables[t];
      var row, put := tb.store.committed, tb.store.proposed[k := me.stack[n]];
      if !me.inTx then
        Told(s.(tables := s.tables[t := TableRecord(tb.name, None, Store(row + put, put))]), c, me.(stack := me.stack[..n]), Okay)
      else if t !in me.locked && tb.owner != None then Sorry(s, c, me, TableBusy)
      else
        var owner := if t in me.locked then tb.owner else Some(c);
        Told(s.(tables := s.tables[t := TableRecord(tb.name, owner, Store(row, put))]), c,
             me.(stack := me.stack[..n], locked := me.locked + {t}), Okay)
  }

  /** GET: the committed value, or else the proposed one, goes on the stack. */
  function Getting(s: State, c: ClientId, me: Client, name: string, k: string): State
    requires c in s.clients && NamesTables(s)
  {
    if name !in s.registry then Sorry(s, c, me, TableNotFound)
    else
      var t := s.registry[name];
      var tb := s.tables[t];
      var row, put := tb.store.committed, tb.store.proposed;
      if me.inTx && t !in me.locked && tb.owner != None then Sorry(s, c, me, TableBusy)
      else
        var held := if me.inTx then me.locked + {t} else me.locked;
        if k !in row && k !in put then Sorry(s, c, me.(locked := held), KeyNotFound)
        else
          var owner := if me.inTx && t !in me.locked then Some(c) else tb.owner;
          Told(s.(tables := s.tables[t := tb.(owner := owner)]), c,
               me.(stack := me.stack + [if k in row then row[k] else put[k]], locked := held), Okay)
  }

  /** What a message does; `id` is where a new table would be. */
  function Reaction(s: State, c: ClientId, m: Content, id: TableId): Option<State>
    requires c in s.clients && IsProper(m) && NamesTables(s)
  {
    var me := s.clients[c];
    var n := |me.stack|;
    if m.kind == LOGIN then Some(Told(s, c, me.(loggedIn := true), Okay))
    else if !me.loggedIn then Some(Refused(s, c, me, Error(NotLoggedIn), true))
    else
      match m.kind
      case PUSH => Some(Told(s, c, me.(stack := me.stack + [m.args[0]]), Okay))
      case POP =>
        Some(if n == 0 then Sorry(s, c, me, OnStack(NothingToPop)) else Told(s, c, me.(stack := me.stack[..n - 1]), Okay))
      case TOP =>
        Some(if n == 0 then Sorry(s, c, me, OnStack(NothingOnTop))
             else if |me.stack[n - 1]| > 1018 then Refused(s, c, me, Error(BadLine(TooLong)), true)
             else Told(s, c, me, Datum(me.stack[n - 1])))
      case ADD => Calculation(s, c, me, Add)
      case SUB => Calculation(s, c, me, Sub)
      case MUL => Calculation(s, c, me, Mul)
      case DIV => Calculation(s, c, me, Div)
      case BEGIN => Some(if me.inTx then Sorry(s, c, me, NestedTransaction) else Told(s, c, me.(inTx := true), Okay))
      case COMMIT =>
        Some(if me.inTx then Told(Freed(s, me.locked, true), c, me.(inTx := false, locked := {}), Okay)
             else Sorry(s, c, me, NoTransaction))
      case BYE => Some(Refused(s, c, me, Okay, true))
      case CREATE => Some(Creating(s, c, me, m.args[0], id))
      case SET => Some(Setting(s, c, me, m.args[0], m.args[1]))
      case GET => Some(Getting(s, c, me, m.args[0], m.args[1]))
      case _ => Some(Sorry(s, c, me, NotARequest))
  }

  // ----- the server obeys it ----------------------------------------------

  /** The session waits for a line; what it has locked are tables, and none outside
      transactions. */
  predicate IsListening(s: State, c: ClientId) {
    && IsOrderly(s, c) && NamesTables(s)
    && s.clients[c].pc == Idle
    && (!s.clients[c].inTx ==> s.clients[c].locked == {})
  }

  function Counting(s: State, c: ClientId, me: Client): Client
    requires c in s.clients
  {
    me.(lines := s.clients[c].lines + 1)
  }

  lemma RespondTells(v: Variant, s: State, c: ClientId, me: Client, r: Reply, id: TableId)
    requires c in s.clients && me.pc == Idle && me.sent == s.clients[c].sent
    ensures Answered(v, s, c, Respond(Counting(s, c, me), r), id) == Told(s, c, me, r)
  {
    var z := AnsweredAtOnce(v, s, c, Respond(Counting(s, c, me), r), id);
  }

  lemma ReleaseFrees(s: State, c: ClientId, me: Client, commit: bool, e: Ending)
    requires c in s.clients
    ensures var cl := Counting(s, c, me).(pc := Releasing(commit, me.locked, None, e));
            Ended(s.(clients := s.clients[c := cl]), c) ==
              Freed(s, me.locked, commit).(clients := s.clients[c := Finish(cl, e)])
  {
    var cl := Counting(s, c, me).(pc := Releasing(commit, me.locked, None, e));
    var z := s.(clients := s.clients[c := cl]);
    assert Released(z, c).tables == Freed(s, me.locked, commit).tables;
    assert z.clients[c := Finish(cl, e)] == s.clients[c := Finish(cl, e)];
  }

  lemma AbortRefuses(v: Variant, s: State, c: ClientId, me: Client, r: Reply, over: bool, id: TableId)
    requires c in s.clients && me.pc == Idle && me.sent == s.clients[c].sent
    ensures Answered(v, s, c, Abort(Counting(s, c, me), Ending(Some(r), over)), id) == Refused(s, c, me, r, over)
  {
    var e := Ending(Some(r), over);
    var z := AnsweredAtOnce(v, s, c, Abort(Counting(s, c, me), e), id);
    ReleaseFrees(s, c, me, false, e);
  }

  lemma QuitRefuses(v: Variant, s: State, c: ClientId, me: Client, r: Reply, id: TableId)
    requires c in s.clients && me.pc == Idle && me.sent == s.clients[c].sent
    ensures Answered(v, s, c, Quit(Counting(s, c, me), r), id) == Refused(s, c, me, r, true)
  {
    var me' := Counting(s, c, me).(sent := me.sent + [r]);
    var z := AnsweredAtOnce(v, s, c, Quit(Counting(s, c, me), r), id);
    ReleaseFrees(s, c, me', false, Ending(None, true));
  }

  lemma ThrowRefuses(v: Variant, s: State, c: ClientId, me: Client, why: Reason, id: TableId)
    requires c in s.clients && me.pc == Idle && me.sent == s.clients[c].sent
    ensures Answered(v, s, c, Throw(Counting(s, c, me), why), id) == Sorry(s, c, me, why)
  {
    AbortRefuses(v, s, c, me, Failed(why), false, id);
  }

  /** What `Dispatch` makes of the client ends where the manual says. */
  ghost predicate Follows(v: Variant, s: State, c: ClientId, r: Option<Client>, id: TableId, z: Option<State>) {
    (r.Some? <==> z.Some?) && (r.Some? ==> Answered(v, s, c, r.value, id) == z.value)
  }

  lemma PushObeys(v: Variant, s: State, c: ClientId, m: Content, id: TableId)
    requires IsListening(s, c) && m.kind == PUSH && IsProper(m)
    ensures var me := s.clients[c];
            Follows(v, s, c, Dispatch(Counting(s, c, me), s.registry, m), id,
                  Some(Told(s, c, me.(stack := me.stack + [m.args[0]]), Okay)))
  {
    RespondTells(v, s, c, s.clients[c].(stack := s.clients[c].stack + [m.args[0]]), Okay, id);
  }

  lemma PopObeys(v: Variant, s: State, c: ClientId, id: TableId)
    requires IsListening(s, c)
    ensures var me, n := s.clients[c], |s.clients[c].stack|;
            Answered(v, s, c, Pop(Counting(s, c, me)), id) ==
              if n == 0 then Sorry(s, c, me, OnStack(NothingToPop)) else Told(s, c, me.(stack := me.stack[..n - 1]), Okay)
  {
    var me, n := s.clients[c], |s.clients[c].stack|;
    if n == 0 {
      ThrowRefuses(v, s, c, me, OnStack(NothingToPop), id);
    } else {
      RespondTells(v, s, c, me.(stack := me.stack[..n - 1]), Okay, id);
    }
  }

  lemma DataLength(w: string)
    ensures DataFits(w) <==> |w| <= 1018
  {
    assert [w][1..] == [];
    assert Spread([w]) == " " + w;
  }

  lemma TopObeys(v: Variant, s: State, c: ClientId, id: TableId)
    requires IsListening(s, c)
    ensures var me, n := s.clients[c], |s.clients[c].stack|;
            Answered(v, s, c, Top(Counting(s, c, me)), id) ==
              if n == 0 then Sorry(s, c, me, OnStack(NothingOnTop))
              else if |me.stack[n - 1]| > 1018 then Refused(s, c, me, Error(BadLine(TooLong)), true)
              else Told(s, c, me, Datum(me.stack[n - 1]))
  {
    var me, n := s.clients[c], |s.clients[c].stack|;
    if n == 0 {
      ThrowRefuses(v, s, c, me, OnStack(NothingOnTop), id);
    } else {
      DataLength(me.stack[n - 1]);
      AbortRefuses(v, s, c, me, Error(BadLine(TooLong)), true, id);
      RespondTells(v, s, c, me, Datum(me.stack[n - 1]), id);
    }
  }

  lemma BeginObeys(v: Variant, s: State, c: ClientId, m: Content, id: TableId)
    requires IsListening(s, c) && m.kind == BEGIN
    ensures var me := s.clients[c];
            Follows(v, s, c, Dispatch(Counting(s, c, me), s.registry, m), id,
                  Some(if me.inTx then Sorry(s, c, me, NestedTransaction) else Told(s, c, me.(inTx := true), Okay)))
  {
    var me := s.clients[c];
    if me.inTx {
      ThrowRefuses(v, s, c, me, NestedTransaction, id);
    } else {
      RespondTells(v, s, c, me.(inTx := true), Okay, id);
    }
  }

  lemma CommitObeys(v: Variant, s: State, c: ClientId, m: Content, id: TableId)
    requires IsListening(s, c) && m.kind == COMMIT
    ensures var me := s.clients[c];
            Follows(v, s, c, Dispatch(Counting(s, c, me), s.registry, m), id,
                  Some(if me.inTx then Told(Freed(s, me.locked, true), c, me.(inTx := false, locked := {}), Okay)
                       else Sorry(s, c, me, NoTransaction)))
  {
    var me := s.clients[c];
    if me.inTx {
      var e := Ending(Some(Okay), false);
      var z := AnsweredAtOnce(v, s, c, Counting(s, c, me).(pc := Releasing(true, me.locked, None, e)), id);
      ReleaseFrees(s, c, me, true, e);
    } else {
      ThrowRefuses(v, s, c, me, NoTransaction, id);
    }
  }

  /** ADD, SUB, MUL, DIV: the operands are taken from the top, the right one first. */
  lemma CalculationObeys(v: Variant, s: State, c: ClientId, op: ArithOp, id: TableId)
    requires IsListening(s, c)
    ensures var me := s.clients[c];
            Follows(v, s, c, Calculate(Counting(s, c, me), Arith(op, me.stack)), id, Calculation(s, c, me, op))
  {
    var me, n := s.clients[c], |s.clients[c].stack|;
    if n < 2 {
      ThrowRefuses(v, s, c, me, OnStack(TooFewOperands(op)), id);
    } else {
      ConcludeObeys(v, s, c, op, Stoi(me.stack[n - 2]), Stoi(me.stack[n - 1]), id);
    }
  }

  lemma ConcludeObeys(v: Variant, s: State, c: ClientId, op: ArithOp, left: Conversion, right: Conversion, id: TableId)
    requires IsListening(s, c) && |s.clients[c].stack| >= 2
    ensures var me := s.clients[c];
            Follows(v, s, c, Calculate(Counting(s, c, me), Conclude(op, me.stack, Classify(left, right))), id,
                    Converted(s, c, me, op, left, right))
  {
    if right.InvalidArgument? || (right.Value? && left.InvalidArgument?) {
      NoIntegerObeys(v, s, c, op, left, right, id);
    } else if right.Value? && left.Value? {
      BothObey(v, s, c, op, left.n, right.n, id);
    }
  }

  lemma NoIntegerObeys(v: Variant, s: State, c: ClientId, op: ArithOp, left: Conversion, right: Conversion, id: TableId)
    requires IsListening(s, c) && |s.clients[c].stack| >= 2
    requires right.InvalidArgument? || (right.Value? && left.InvalidArgument?)
    ensures var me := s.clients[c];
            Follows(v, s, c, Calculate(Counting(s, c, me), Conclude(op, me.stack, Classify(left, right))), id,
                    Converted(s, c, me, op, left, right))
  {
    var me, n := s.clients[c], |s.clients[c].stack|;
    if right.InvalidArgument? {
      ThrowRefuses(v, s, c, me, OnStack(NotAnInteger), id);
    } else {
      ThrowRefuses(v, s, c, me.(stack := me.stack[..n - 1] + [ToString(right.n)]), OnStack(NotAnInteger), id);
    }
  }

  lemma BothObey(v: Variant, s: State, c: ClientId, op: ArithOp, l: int, r: int, id: TableId)
    requires IsListening(s, c) && |s.clients[c].stack| >= 2
    ensures var me := s.clients[c];
            Follows(v, s, c, Calculate(Counting(s, c, me), Conclude(op, me.stack, Both(l, r))), id,
                  Converted(s, c, me, op, Value(l), Value(r)))
  {
    var me, n := s.clients[c], |s.clients[c].stack|;
    ComputeExactly(op, l, r);
    if Compute(op, l, r).Some? {
      RespondTells(v, s, c, me.(stack := me.stack[..n - 2] + [ToString(Compute(op, l, r).value)]), Okay, id);
    }
  }

  lemma CreateObeys(v: Variant, s: State, c: ClientId, name: string, id: TableId)
    requires IsListening(s, c) && s.server == None && id !in s.tables
    ensures var me := s.clients[c];
            Answered(v, s, c, Counting(s, c, me).(pc := CreateWait(name)), id) == Creating(s, c, me, name, id)
  {
    if name in s.registry {
      CreateObeysKnown(v, s, c, name, id);
    } else {
      CreateObeysNew(v, s, c, name, id);
    }
  }

  lemma CreateObeysKnown(v: Variant, s: State, c: ClientId, name: string, id: TableId)
    requires IsListening(s, c) && s.server == None && name in s.registry
    ensures var me := s.clients[c];
            Answered(v, s, c, Counting(s, c, me).(pc := CreateWait(name)), id) == Sorry(s, c, me, TableExists)
  {
    var me, cl := s.clients[c], Counting(s, c, s.clients[c]);
    var asked := s.(clients := s.clients[c := cl.(pc := CreateWait(name))]);
    DriveCreateKnown(v, asked, c, name, id);
    assert asked.clients[c := Throw(cl, TableExists)] == s.clients[c := Throw(cl, TableExists)];
    var z := AnsweredAtOnce(v, s, c, Throw(cl, TableExists), id);
    ThrowRefuses(v, s, c, me, TableExists, id);
  }

  lemma CreateObeysNew(v: Variant, s: State, c: ClientId, name: string, id: TableId)
    requires IsListening(s, c) && s.server == None && name !in s.registry && id !in s.tables
    ensures var me := s.clients[c];
            Answered(v, s, c, Counting(s, c, me).(pc := CreateWait(name)), id) == Creating(s, c, me, name, id)
  {
    var cl := Counting(s, c, s.clients[c]);
    var asked := s.(clients := s.clients[c := cl.(pc := CreateWait(name))]);
    DriveCreateNew(v, asked, c, name, id);
    assert asked.clients[c := Respond(cl, Okay)] == s.clients[c := Respond(cl, Okay)];
  }

  /** A GET or SET on its way ends where client and table end. */
  lemma AccessEnds(v: Variant, s: State, c: ClientId, t: TableId, cl: Client, q: Spot, id: TableId)
    requires IsListening(s, c) && t in s.tables && IsAccess(cl.pc) && Subject(cl.pc) == Some(t)
    requires Solo(v, c, Spot(cl, s.tables[t])) == q
    ensures Answered(v, s, c, cl, id) == Ended(s.(tables := s.tables[t := q.table], clients := s.clients[c := q.cl]), c)
  {
    AnsweredAccess(v, s, c, t, cl, id);
  }

  /** It ends with a reply. */
  lemma AccessTells(v: Variant, s: State, c: ClientId, t: TableId, cl: Client, me: Client, tb: TableRecord, id: TableId)
    requires IsListening(s, c) && t in s.tables && IsAccess(cl.pc) && Subject(cl.pc) == Some(t)
    requires me.pc == Idle && me.sent == s.clients[c].sent
    requires Solo(v, c, Spot(cl, s.tables[t])) == Spot(Respond(Counting(s, c, me), Okay), tb)
    ensures Answered(v, s, c, cl, id) == Told(s.(tables := s.tables[t := tb]), c, me, Okay)
  {
    AccessEnds(v, s, c, t, cl, Spot(Respond(Counting(s, c, me), Okay), tb), id);
  }

  /** It throws, with its table as it was, or about to be rolled back. */
  lemma AccessThrows(v: Variant, s: State, c: ClientId, t: TableId, cl: Client, me: Client, tb: TableRecord, why: Reason, id: TableId)
    requires IsListening(s, c) && t in s.tables && IsAccess(cl.pc) && Subject(cl.pc) == Some(t)
    requires me.pc == Idle && me.sent == s.clients[c].sent
    requires Solo(v, c, Spot(cl, s.tables[t])) == Spot(Throw(Counting(s, c, me), why), tb)
    requires tb == s.tables[t] || (me.inTx && t in me.locked && tb == s.tables[t].(owner := tb.owner))
    ensures Answered(v, s, c, cl, id) == Sorry(s, c, me, why)
  {
    var e, s1 := Ending(Some(Failed(why)), false), s.(tables := s.tables[t := tb]);
    AccessEnds(v, s, c, t, cl, Spot(Throw(Counting(s, c, me), why), tb), id);
    if me.inTx {
      ReleaseFrees(s1, c, me, false, e);
      FreedAnyway(s, me.locked, t, tb);
    } else {
      assert s1.tables == s.tables;
    }
  }

  lemma FreedAnyway(s: State, held: set<TableId>, t: TableId, tb: TableRecord)
    requires t in s.tables && (tb == s.tables[t] || (t in held && tb == s.tables[t].(owner := tb.owner)))
    ensures Freed(s.(tables := s.tables[t := tb]), held, false) == Freed(s, held, false)
  {
    var s1 := s.(tables := s.tables[t := tb]);
    assert Freed(s1, held, false).tables == Freed(s, held, false).tables;
  }

  /** The request is not made to wait. */
  predicate MayGoOn(s: State, c: ClientId, name: string)
    requires c in s.clients && NamesTables(s)
  {
    s.clients[c].inTx || name !in s.registry || s.tables[s.registry[name]].owner == None
  }

  lemma SetObeys(v: Variant, s: State, c: ClientId, name: string, k: string, id: TableId)
    requires IsListening(s, c) && (s.clients[c].stack != [] ==> MayGoOn(s, c, name))
    ensures var me := s.clients[c];
            Answered(v, s, c, Approach(Counting(s, c, me), s.registry, name, SetOp(k)), id) == Setting(s, c, me, name, k)
  {
    var me := s.clients[c];
    if me.stack == [] {
      ThrowRefuses(v, s, c, me, NoValueOnStack, id);
    } else if name !in s.registry {
      ThrowRefuses(v, s, c, me, TableNotFound, id);
    } else if me.inTx {
      SetObeysInside(v, s, c, s.registry[name], k, id);
    } else {
      SetObeysAlone(v, s, c, s.registry[name], k, id);
    }
  }

  lemma SetObeysAlone(v: Variant, s: State, c: ClientId, t: TableId, k: string, id: TableId)
    requires IsListening(s, c) && t in s.tables && s.tables[t].owner == None && !s.clients[c].inTx && s.clients[c].stack != []
    ensures var me, tb := s.clients[c], s.tables[t];
            var put := tb.store.proposed[k := me.stack[|me.stack| - 1]];
            Answered(v, s, c, Counting(s, c, me).(pc := AutoWait(SetOp(k), t)), id) ==
              Told(s.(tables := s.tables[t := TableRecord(tb.name, None, Store(tb.store.committed + put, put))]), c,
                   me.(stack := me.stack[..|me.stack| - 1]), Okay)
  {
    var me, tb := s.clients[c], s.tables[t];
    var put := tb.store.proposed[k := me.stack[|me.stack| - 1]];
    var cl := Counting(s, c, me).(pc := AutoWait(SetOp(k), t));
    SoloAutoSet(v, c, Spot(cl, tb), k, t);
    AccessTells(v, s, c, t, cl, me.(stack := me.stack[..|me.stack| - 1]), TableRecord(tb.name, None, Store(tb.store.committed + put, put)), id);
  }

  lemma SetObeysInside(v: Variant, s: State, c: ClientId, t: TableId, k: string, id: TableId)
    requires IsListening(s, c) && t in s.tables && s.clients[c].inTx && s.clients[c].stack != []
    ensures var me, tb := s.clients[c], s.tables[t];
            Answered(v, s, c, Counting(s, c, me).(pc := TxAcquire(SetOp(k), t)), id) ==
              if t !in me.locked && tb.owner != None then Sorry(s, c, me, TableBusy)
              else
                Told(s.(tables := s.tables[t := TableRecord(tb.name, if t in me.locked then tb.owner else Some(c),
                          Store(tb.store.committed, tb.store.proposed[k := me.stack[|me.stack| - 1]]))]), c,
                     me.(stack := me.stack[..|me.stack| - 1], locked := me.locked + {t}), Okay)
  {
    var me, tb := s.clients[c], s.tables[t];
    var cl := Counting(s, c, me).(pc := TxAcquire(SetOp(k), t));
    if t !in me.locked && tb.owner != None {
      SoloBusy(v, c, Spot(cl, tb), SetOp(k), t);
      AccessThrows(v, s, c, t, cl, me, tb, TableBusy, id);
    } else {
      SoloTxSet(v, c, Spot(cl, tb), k, t);
      assert t in me.locked ==> me.locked + {t} == me.locked;
      AccessTells(v, s, c, t, cl, me.(stack := me.stack[..|me.stack| - 1], locked := me.locked + {t}),
                  TableRecord(tb.name, if t in me.locked then tb.owner else Some(c),
                    Store(tb.store.committed, tb.store.proposed[k := me.stack[|me.stack| - 1]])), id);
    }
  }

  lemma GetObeys(v: Variant, s: State, c: ClientId, name: string, k: string, id: TableId)
    requires IsListening(s, c) && MayGoOn(s, c, name)
    ensures var me := s.clients[c];
            Answered(v, s, c, Approach(Counting(s, c, me), s.registry, name, GetOp(k)), id) == Getting(s, c, me, name, k)
  {
    var me := s.clients[c];
    if name !in s.registry {
      ThrowRefuses(v, s, c, me, TableNotFound, id);
    } else if me.inTx {
      GetObeysInside(v, s, c, name, k, id);
    } else {
      GetObeysAlone(v, s, c, name, k, id);
    }
  }

  lemma GetObeysAlone(v: Variant, s: State, c: ClientId, name: string, k: string, id: TableId)
    requires IsListening(s, c) && name in s.registry && !s.clients[c].inTx && s.tables[s.registry[name]].owner == None
    ensures var me := s.clients[c];
            Answered(v, s, c, Counting(s, c, me).(pc := AutoWait(GetOp(k), s.registry[name])), id) == Getting(s, c, me, name, k)
  {
    var me, t := s.clients[c], s.registry[name];
    var tb := s.tables[t];
    var cl := Counting(s, c, me).(pc := AutoWait(GetOp(k), t));
    if HasKey(tb.store, k) {
      SoloAutoHit(v, c, Spot(cl, tb), k, t);
      AccessTells(v, s, c, t, cl, me.(stack := me.stack + [Fetch(tb.store, k).value]), tb, id);
    } else {
      SoloAutoMiss(v, c, Spot(cl, tb), k, t);
      AccessThrows(v, s, c, t, cl, me, tb, KeyNotFound, id);
    }
  }

  lemma GetObeysInside(v: Variant, s: State, c: ClientId, name: string, k: string, id: TableId)
    requires IsListening(s, c) && name in s.registry && s.clients[c].inTx
    ensures var me := s.clients[c];
            Answered(v, s, c, Counting(s, c, me).(pc := TxAcquire(GetOp(k), s.registry[name])), id) == Getting(s, c, me, name, k)
  {
    var me, t := s.clients[c], s.registry[name];
    var tb := s.tables[t];
    var cl := Counting(s, c, me).(pc := TxAcquire(GetOp(k), t));
    var held := me.(locked := me.locked + {t});
    var owner := if t in me.locked then tb.owner else Some(c);
    assert t in me.locked ==> me.locked + {t} == me.locked;
    if t !in me.locked && tb.owner != None {
      SoloBusy(v, c, Spot(cl, tb), GetOp(k), t);
      AccessThrows(v, s, c, t, cl, me, tb, TableBusy, id);
    } else if HasKey(tb.store, k) {
      SoloTxHit(v, c, Spot(cl, tb), k, t);
      AccessTells(v, s, c, t, cl, held.(stack := me.stack + [Fetch(tb.store, k).value]), tb.(owner := owner), id);
    } else {
      SoloTxMiss(v, c, Spot(cl, tb), k, t);
      AccessThrows(v, s, c, t, cl, held, tb.(owner := if v == AsWritten then None else owner), KeyNotFound, id);
    }
  }

  // ----- the whole request ------------------------------------------------

  /** The request finds a lock taken that it has to wait for. */
  predicate HasToWait(s: State, c: ClientId, m: Content)
    requires c in s.clients && NamesTables(s) && IsProper(m)
  {
    && s.clients[c].loggedIn
    && match m.kind
       case CREATE => s.server.Some?
       case SET => s.clients[c].stack != [] && !MayGoOn(s, c, m.args[0])
       case GET => !MayGoOn(s, c, m.args[0])
       case _ => false
  }

  lemma ArithmeticObeys(v: Variant, s: State, c: ClientId, m: Content, op: ArithOp, id: TableId)
    requires IsListening(s, c) && m.kind == RequestFor(op)
    ensures var me := s.clients[c];
            Follows(v, s, c, Dispatch(Counting(s, c, me), s.registry, m), id, Calculation(s, c, me, op))
  {
    OperatorDispatched(Counting(s, c, s.clients[c]), s.registry, m, op);
    CalculationObeys(v, s, c, op, id);
  }

  lemma TableObeys(v: Variant, s: State, c: ClientId, m: Content, id: TableId)
    requires IsListening(s, c) && s.clients[c].loggedIn && (m.kind == CREATE || m.kind == SET || m.kind == GET)
    requires IsProper(m) && !HasToWait(s, c, m) && id !in s.tables
    ensures Follows(v, s, c, Dispatch(Counting(s, c, s.clients[c]), s.registry, m), id, Reaction(s, c, m, id))
  {
    match m.kind
    case CREATE => CreateObeys(v, s, c, m.args[0], id);
    case SET => SetObeys(v, s, c, m.args[0], m.args[1], id);
    case GET => GetObeys(v, s, c, m.args[0], m.args[1], id);
  }

  lemma EntryObeys(v: Variant, s: State, c: ClientId, m: Content, id: TableId)
    requires IsListening(s, c) && s.clients[c].loggedIn && IsProper(m) && m.kind in {PUSH, POP, TOP, BEGIN, COMMIT}
    ensures Follows(v, s, c, Dispatch(Counting(s, c, s.clients[c]), s.registry, m), id, Reaction(s, c, m, id))
  {
    match m.kind
    case PUSH => PushObeys(v, s, c, m, id);
    case POP => PopObeys(v, s, c, id);
    case TOP => TopObeys(v, s, c, id);
    case BEGIN => BeginObeys(v, s, c, m, id);
    case COMMIT => CommitObeys(v, s, c, m, id);
  }

  lemma OtherObeys(v: Variant, s: State, c: ClientId, m: Content, id: TableId)
    requires IsListening(s, c) && s.clients[c].loggedIn && IsProper(m) && m.kind in {NONE, BYE, OK, FAILED, ERROR, DATA}
    ensures Follows(v, s, c, Dispatch(Counting(s, c, s.clients[c]), s.registry, m), id, Reaction(s, c, m, id))
  {
    var me := s.clients[c];
    if m.kind == BYE {
      QuitRefuses(v, s, c, me, Okay, id);
    } else {
      ThrowRefuses(v, s, c, me, NotARequest, id);
    }
  }

  lemma DispatchObeys(v: Variant, s: State, c: ClientId, m: Content, id: TableId)
    requires IsListening(s, c) && s.clients[c].loggedIn && IsProper(m) && m.kind != LOGIN
    requires !HasToWait(s, c, m) && id !in s.tables
    ensures Follows(v, s, c, Dispatch(Counting(s, c, s.clients[c]), s.registry, m), id, Reaction(s, c, m, id))
  {
    match m.kind
    case ADD => ArithmeticObeys(v, s, c, m, Add, id);
    case SUB => ArithmeticObeys(v, s, c, m, Sub, id);
    case MUL => ArithmeticObeys(v, s, c, m, Mul, id);
    case DIV => ArithmeticObeys(v, s, c, m, Div, id);
    case CREATE => TableObeys(v, s, c, m, id);
    case SET => TableObeys(v, s, c, m, id);
    case GET => TableObeys(v, s, c, m, id);
    case PUSH => EntryObeys(v, s, c, m, id);
    case POP => EntryObeys(v, s, c, m, id);
    case TOP => EntryObeys(v, s, c, m, id);
    case BEGIN => EntryObeys(v, s, c, m, id);
    case COMMIT => EntryObeys(v, s, c, m, id);
    case _ => OtherObeys(v, s, c, m, id);
  }

  lemma ServeObeys(v: Variant, s: State, c: ClientId, m: Content, id: TableId)
    requires IsListening(s, c) && IsProper(m) && !HasToWait(s, c, m) && id !in s.tables
    ensures Follows(v, s, c, Serve(s.clients[c], s.registry, Good(m)), id, Reaction(s, c, m, id))
  {
    var me := s.clients[c];
    if m.kind == LOGIN {
      RespondTells(v, s, c, me.(loggedIn := true), Okay, id);
    } else if me.loggedIn {
      ServedIsDispatched(me, s.registry, m);
      DispatchObeys(v, s, c, m, id);
    } else {
      QuitRefuses(v, s, c, me, Error(NotLoggedIn), id);
    }
  }

  /** The run is the line followed by the client's own steps, and leads to `z`. */
  ghost predicate IsAnswer(v: Variant, s: State, c: ClientId, text: string, run: seq<Action>, z: State) {
    && run != [] && run[0] == Act(c, Request(text)) && IsSolo(run[1..], c)
    && Legal(v, s, run) && After(v, s, run) == z
  }

  lemma {:induction false} AnswerRuns(v: Variant, s: State, c: ClientId, text: string, p: Parsed, cl: Client, id: TableId, z: State)
    returns (run: seq<Action>)
    requires IsListening(s, c) && Parse(text) == p && Serve(s.clients[c], s.registry, p) == Some(cl)
    requires Answered(v, s, c, cl, id) == z
    ensures IsAnswer(v, s, c, text, run, z)
  {
    run := AnsweredIsRun(v, s, c, text, cl, id);
  }

  lemma {:induction false} NoAnswerCrashes(v: Variant, s: State, c: ClientId, text: string, p: Parsed)
    requires IsListening(s, c) && Parse(text) == p && Serve(s.clients[c], s.registry, p) == None
    ensures Enabled(s, Act(c, Request(text))) && Step(v, s, Act(c, Request(text))).crashed
  {
    ParsedConforms(text);
    ServeCrashesExactly(s.clients[c], s.registry, p);
    StepCrashesExactly(v, s, Act(c, Request(text)));
  }

  lemma ReceivedIsProper(text: string, m: Content)
    requires Parse(text) == Good(m)
    ensures IsProper(m)
  {
    ParsedConforms(text);
    ProperAre(m);
  }

  /** Every line that says a message, in any spelling, does what the manual says, in
      either variant, and ends the process exactly if the manual says so. */
  lemma {:induction false} ServerObeysManual(v: Variant, s: State, c: ClientId, text: string, m: Content, id: TableId)
    returns (run: seq<Action>)
    requires IsListening(s, c) && Parse(text) == Good(m) && id !in s.tables
    requires IsProper(m) ==> !HasToWait(s, c, m)
    ensures IsProper(m)
    ensures Reaction(s, c, m, id).Some? ==> IsAnswer(v, s, c, text, run, Reaction(s, c, m, id).value)
    ensures Reaction(s, c, m, id) == None ==>
              Enabled(s, Act(c, Request(text))) && Step(v, s, Act(c, Request(text))).crashed
  {
    ReceivedIsProper(text, m);
    ServeObeys(v, s, c, m, id);
    run := [];
    var r, z := Serve(s.clients[c], s.registry, Good(m)), Reaction(s, c, m, id);
    if z.Some? {
      run := AnswerRuns(v, s, c, text, Good(m), r.value, id, z.value);
    } else {
      NoAnswerCrashes(v, s, c, text, Good(m));
    }
  }

  lemma BadObeys(v: Variant, s: State, c: ClientId, why: Complaint, id: TableId)
    requires IsListening(s, c)
    ensures Follows(v, s, c, Serve(s.clients[c], s.registry, Bad(why)), id,
                    Some(Refused(s, c, s.clients[c], Error(BadLine(why)), false)))
  {
    AbortRefuses(v, s, c, s.clients[c], Error(BadLine(why)), false, id);
  }

  /** A line that says nothing is answered with one ERROR; a transaction fails, and the
      session goes on. */
  lemma {:induction false} BadLinesAreRefused(v: Variant, s: State, c: ClientId, text: string, why: Complaint)
    returns (run: seq<Action>)
    requires IsListening(s, c) && Parse(text) == Bad(why)
    ensures IsAnswer(v, s, c, text, run, Refused(s, c, s.clients[c], Error(BadLine(why)), false))
  {
    BadObeys(v, s, c, why, 0);
    run := AnswerRuns(v, s, c, text, Bad(why), Serve(s.clients[c], s.registry, Bad(why)).value, 0,
                      Refused(s, c, s.clients[c], Error(BadLine(why)), false));
  }

  /** A request that is not blocked need not wait. */
  lemma UnblockedNeedNotWait(s: State, c: ClientId, m: Content)
    requires IsListening(s, c) && IsProper(m)
    requires var r := Serve(s.clients[c], s.registry, Good(m)); r.Some? ==> !Blocked(s, r.value)
    ensures !HasToWait(s, c, m)
  {
    if s.clients[c].loggedIn && m.kind in {CREATE, SET, GET} {
      ServedIsDispatched(s.clients[c], s.registry, m);
    }
  }

  /** What the manual has for what `decode` made of a line; None if the process ends. */
  function ReactionTo(s: State, c: ClientId, p: Parsed, id: TableId): Option<State>
    requires c in s.clients && NamesTables(s) && (p.Good? ==> IsProper(p.m))
  {
    match p
    case Good(m) => Reaction(s, c, m, id)
    case Bad(why) => Some(Refused(s, c, s.clients[c], Error(BadLine(why)), false))
    case Uncaught => None
  }

  lemma UnblockedObeys(v: Variant, s: State, c: ClientId, p: Parsed, id: TableId)
    requires IsListening(s, c) && id !in s.tables && (p.Good? ==> IsProper(p.m))
    requires var r := Serve(s.clients[c], s.registry, p); r.Some? ==> !Blocked(s, r.value)
    ensures Follows(v, s, c, Serve(s.clients[c], s.registry, p), id, ReactionTo(s, c, p, id))
  {
    match p
    case Good(m) =>
      UnblockedNeedNotWait(s, c, m);
      ServeObeys(v, s, c, m, id);
    case Bad(why) => BadObeys(v, s, c, why, id);
    case Uncaught =>
  }

  // ----- which lines, and when --------------------------------------------

  /** What a line says does not depend on the parser: the bytes before the first NUL
      spell the words of a proper message, and there are not too many. */
  lemma {:induction false} ParsesExactly(text: string, m: Content)
    requires m.kind != NONE && m.kind != FAILED && m.kind != ERROR
    ensures Parse(text) == Good(m) <==>
              |CString(text)| <= MAX_ENCODED_LEN && Says(CString(text), m) && IsProper(m)
  {
    DecodesExactly(CString(text), m, Content(NONE, []));
  }

  /** A session that is idle in a run is listening. */
  lemma IdleIsListening(s: State, c: ClientId)
    requires HoldInv(s) && !s.crashed && c in s.clients && s.clients[c].pc == Idle
    ensures IsListening(s, c)
  {
    assert ThreadOk(s, s.clients[c]);
  }

  /** So at any moment of any run a session that is idle can be told what a line says,
      and if it need not wait, the run goes on as the manual says. */
  lemma {:induction false} ManualOnEveryRun(v: Variant, run: seq<Action>, c: ClientId, text: string, m: Content, id: TableId)
    returns (more: seq<Action>)
    requires Legal(v, EMPTY_SERVER, run)
    requires var z := After(v, EMPTY_SERVER, run);
             !z.crashed && c in z.clients && z.clients[c].pc == Idle && id !in z.tables
    requires Parse(text) == Good(m)
    ensures IsProper(m) && NamesTables(After(v, EMPTY_SERVER, run))
    ensures var z := After(v, EMPTY_SERVER, run);
            !HasToWait(z, c, m) && Reaction(z, c, m, id).Some? ==>
              && more != [] && more[0] == Act(c, Request(text)) && IsSolo(more[1..], c)
              && Legal(v, EMPTY_SERVER, run + more)
              && After(v, EMPTY_SERVER, run + more) == Reaction(z, c, m, id).value
  {
    HoldingsOnEveryRun(v, EMPTY_SERVER, run);
    var z := After(v, EMPTY_SERVER, run);
    IdleIsListening(z, c);
    ReceivedIsProper(text, m);
    more := [];
    if !HasToWait(z, c, m) && Reaction(z, c, m, id).Some? {
      more := ServerObeysManual(v, z, c, text, m, id);
      Append(v, EMPTY_SERVER, run, more);
    }
  }
}
