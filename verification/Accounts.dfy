/** The recorded history is what the clients have lived through: on every run, the units
    it has for a client are told by the lines the client has sent, the replies it got, and
    the values its GETs put on its stack, and by nothing else. */
module Accounts {
  import opened Conversation
  import opened Crashes
  import opened Deadlock
  import opened Engine
  import opened History
  import opened Holdings
  import opened Messages
  import opened Runs
  import opened Serial
  import opened Sessions
  import opened StackMachine
  import opened Tables
  import opened Wrappers

  // ----- what a session lives through -------------------------------------

  /** A session's stack, its completed units in order, and the operations of its open
      transaction, if it is in one. */
  datatype Account = Account(stack: seq<string>, units: seq<Unit>, open: Option<seq<Op>>)

  const BLANK := Account([], [], None)

  function Noted(c: ClientId, a: Account, op: Op): Account {
    if a.open.Some? then a.(open := Some(a.open.value + [op])) else a.(units := a.units + [One(c, op)])
  }

  function Concluded(c: ClientId, a: Account, committed: bool): Account {
    if a.open.Some? then Account(a.stack, a.units + [Txn(c, a.open.value, committed)], None) else a
  }

  function Calculated(a: Account, op: ArithOp): Account {
    match Arith(op, a.stack)
    case Next(stack) => a.(stack := stack)
    case Refuse(_, stack) => a.(stack := stack)
    case Crash => a
  }

  function AddsSet(c: ClientId, a: Account, t: string, k: string, r: Reply): Account {
    if r == Okay then Noted(c, a.(stack := Popped(a.stack)), Write(t, k, TopOf(a.stack)))
    else if r == Failed(TableNotFound) then Noted(c, a, Absent(t))
    else a
  }

  function AddsGet(c: ClientId, a: Account, t: string, k: string, r: Reply, w: string): Account {
    if r == Okay then Noted(c, a.(stack := a.stack + [w]), Read(t, k, Some(w)))
    else if r == Failed(KeyNotFound) then Noted(c, a, Read(t, k, None))
    else if r == Failed(TableNotFound) then Noted(c, a, Absent(t))
    else a
  }

  /** What a line and its reply add, the end of a transaction aside; `w` is the value a
      GET has put on the stack. */
  function Adding(c: ClientId, a: Account, p: Parsed, r: Reply, w: string): Account {
    if !p.Good? || r.Error? || !Conforms(p.m) then a
    else
      match p.m.kind
      case PUSH => a.(stack := a.stack + [p.m.args[0]])
      case POP => a.(stack := Popped(a.stack))
      case ADD => Calculated(a, Add)
      case SUB => Calculated(a, Sub)
      case MUL => Calculated(a, Mul)
      case DIV => Calculated(a, Div)
      case CREATE => a.(units := a.units + [Create(c, p.m.args[0], r == Okay)])
      case SET => AddsSet(c, a, p.m.args[0], p.m.args[1], r)
      case GET => AddsGet(c, a, p.m.args[0], p.m.args[1], r, w)
      case _ => a
  }

  predicate IsOk(p: Parsed, r: Reply, k: MessageType) {
    p.Good? && p.m.kind == k && r == Okay
  }

  /** A transaction ends with COMMIT, with BYE, and with everything that is refused. */
  predicate Finishes(p: Parsed, r: Reply) {
    r.Failed? || r.Error? || IsOk(p, r, COMMIT) || IsOk(p, r, BYE)
  }

  function Chapter(c: ClientId, a: Account, p: Parsed, r: Reply, w: string): Account {
    var b := Adding(c, a, p, r, w);
    if IsOk(p, r, BEGIN) then b.(open := Some([]))
    else if Finishes(p, r) then Concluded(c, b, IsOk(p, r, COMMIT))
    else b
  }

  /** The account that lines, replies and values read give. */
  function AccountOf(c: ClientId, ps: seq<Parsed>, rs: seq<Reply>, ws: seq<string>): Account
    requires |ws| == |rs| <= |ps|
  {
    if rs == [] then BLANK
    else
      var n := |rs| - 1;
      Chapter(c, AccountOf(c, ps, rs[..n], ws[..n]), ps[n], rs[n], ws[n])
  }

  // ----- the history's own account ----------------------------------------

  function UnitsBy(log: seq<Unit>, c: ClientId): seq<Unit> {
    if log == [] then []
    else
      var n := |log| - 1;
      UnitsBy(log[..n], c) + if log[n].client == c then [log[n]] else []
  }

  function OpenBy(h: Hist, c: ClientId): Option<seq<Op>> {
    if c in h.open then Some(h.open[c]) else None
  }

  // ----- lines in work ----------------------------------------------------

  /** The reply that is settled though not sent yet. */
  function Settles(pc: Pc): Option<Reply> {
    match pc
    case AutoCommit(_) => Some(Okay)
    case AutoUnlock(_, r) => Some(r)
    case Stray(_) => Some(Failed(KeyNotFound))
    case Releasing(_, _, _, e) => e.reply
    case CreateUnlock(failed) => if failed then Some(Failed(TableExists)) else None
    case _ => None
  }

  /** Where the reply is still open. */
  predicate IsUnsettled(pc: Pc) {
    pc.AutoWait? || pc.AutoRun? || pc.TxAcquire? || pc.TxRun? || pc.CreateWait? || pc.CreateFind? || pc.CreateInsert?
  }

  /** Replies sent, and the one that is settled. */
  function Replied(cl: Client): seq<Reply> {
    cl.sent + if Settles(cl.pc).Some? then [Settles(cl.pc).value] else []
  }

  /** The reply is settled, the transaction not yet ended. */
  predicate IsEnding(cl: Client) {
    cl.inTx && (cl.pc.Stray? || cl.pc == CreateUnlock(true))
  }

  /** The session is over, or will be after a rollback. */
  predicate IsLeaving(pc: Pc) {
    pc.Closed? || (pc.Releasing? && pc.ending.close)
  }

  /** The account up to where the client's thread is. */
  function SoFar(c: ClientId, cl: Client, ps: seq<Parsed>, ws: seq<string>): Account
    requires |ws| == |Replied(cl)| <= |ps|
  {
    var rs := Replied(cl);
    var n := |rs| - 1;
    var a := if IsEnding(cl) then Adding(c, AccountOf(c, ps, rs[..n], ws[..n]), ps[n], rs[n], ws[n]) else AccountOf(c, ps, rs, ws);
    if IsLeaving(cl.pc) then Concluded(c, a, false) else a
  }

  // ----- what the recorder does -------------------------------------------

  /** The account after a step of its client, as the recorder keeps it. */
  function Booked(c: ClientId, a: Account, op: Option<Op>, made: Option<Unit>, before: bool, cl: Client): Account {
    var a1 := if op.Some? then Noted(c, a, op.value) else a;
    var a2 := if made.Some? then a1.(units := a1.units + [made.value]) else a1;
    var a3 := if !before && IsOpen(cl) then a2.(open := Some([]))
              else if before && !IsOpen(cl) then Concluded(c, a2, cl.pc.Releasing? && cl.pc.commit)
              else a2;
    a3.(stack := cl.stack)
  }

  function AccountIn(h: Hist, c: ClientId, cl: Client): Account {
    Account(cl.stack, UnitsBy(h.log, c), OpenBy(h, c))
  }

  lemma UnitsGrow(log: seq<Unit>, u: Unit, c: ClientId)
    ensures UnitsBy(log + [u], c) == UnitsBy(log, c) + if u.client == c then [u] else []
  {
    assert (log + [u])[..|log|] == log;
  }

  lemma NoteRecords(h: Hist, c: ClientId, op: Op, cl: Client, d: ClientId)
    ensures AccountIn(Note(h, c, Some(op)), d, cl) == if d == c then Noted(c, AccountIn(h, c, cl), op) else AccountIn(h, d, cl)
  {
    UnitsGrow(h.log, One(c, op), d);
  }

  lemma BoundRecords(h: Hist, c: ClientId, before: bool, after: Client, cl: Client, d: ClientId)
    requires before <==> c in h.open
    ensures AccountIn(Bound(h, c, before, after), d, cl) ==
              var a := AccountIn(h, d, cl);
              if d != c then a
              else if !before && IsOpen(after) then a.(open := Some([]))
              else if before && !IsOpen(after) then Concluded(c, a, after.pc.Releasing? && after.pc.commit)
              else a
  {
    if before && !IsOpen(after) {
      UnitsGrow(h.log, Txn(c, h.open[c], after.pc.Releasing? && after.pc.commit), d);
    }
  }

  lemma MadeRecords(h: Hist, c: ClientId, made: Option<Unit>, cl: Client, d: ClientId)
    requires made.Some? ==> made.value.client == c
    ensures var h' := if made.Some? then h.(log := h.log + [made.value]) else h;
            var a := AccountIn(h, d, cl);
            AccountIn(h', d, cl) == if made.Some? && d == c then a.(units := a.units + [made.value]) else a
  {
    if made.Some? {
      UnitsGrow(h.log, made.value, d);
    }
  }

  /** The recorder touches the account of the client that moves, and no other. */
  lemma RecordsAccount(v: Variant, h: Hist, s: State, a: Action, cl: Client, d: ClientId)
    requires Enabled(s, a) && (a.c in h.open <==> a.c in s.clients && IsOpen(s.clients[a.c]))
    requires Created(s, a).Some? ==> Created(s, a).value.client == a.c
    ensures AccountIn(Record(v, h, s, a), d, Move(v, s, a).0) ==
              if d == a.c
              then Booked(d, AccountIn(h, d, cl), Observed(s, a), Created(s, a),
                          a.c in s.clients && IsOpen(s.clients[a.c]), Move(v, s, a).0)
              else AccountIn(h, d, Move(v, s, a).0)
  {
    RecordsWith(h, a.c, Observed(s, a), Created(s, a), a.c in s.clients && IsOpen(s.clients[a.c]), Move(v, s, a).0, cl, d);
  }

  lemma RecordsWith(h: Hist, c: ClientId, op: Option<Op>, made: Option<Unit>, before: bool, now: Client, cl: Client, d: ClientId)
    requires (before <==> c in h.open) && (made.Some? ==> made.value.client == c)
    ensures var h1 := Note(h, c, op);
            var h2 := if made.Some? then h1.(log := h1.log + [made.value]) else h1;
            AccountIn(Bound(h2, c, before, now), d, now) ==
              if d == c then Booked(d, AccountIn(h, d, cl), op, made, before, now) else AccountIn(h, d, now)
  {
    var h1 := Note(h, c, op);
    var h2 := if made.Some? then h1.(log := h1.log + [made.value]) else h1;
    if op.Some? {
      NoteRecords(h, c, op.value, now, d);
    }
    MadeRecords(h1, c, made, now, d);
    BoundRecords(h2, c, before, now, now, d);
  }

  // ----- one step, on the client ------------------------------------------

  /** The step settles one reply more, and the account moves on by what it and the line
      say; or it settles nothing, and nothing is booked. */
  predicate MovesOn(c: ClientId, a: Account, cl: Client, cl': Client, p: Parsed, a': Account) {
    if Replied(cl') == Replied(cl) then a' == a && IsUnsettled(cl'.pc)
    else
      && !IsUnsettled(cl'.pc) && |Replied(cl')| == |Replied(cl)| + 1 && Replied(cl) <= Replied(cl')
      && var r, w := Replied(cl')[|Replied(cl)|], TopOf(cl'.stack);
         var b := if IsEnding(cl') then Adding(c, a, p, r, w) else Chapter(c, a, p, r, w);
         a' == if IsLeaving(cl'.pc) then Concluded(c, b, false) else b
  }

  /** The account fits the client. */
  predicate Suits(a: Account, cl: Client) {
    a.stack == cl.stack && (a.open.Some? <==> IsOpen(cl))
  }

  function Marked(c: ClientId, a: Account, op: Option<Op>): Account {
    if op.Some? then Noted(c, a, op.value) else a
  }

  /** The request is refused. */
  lemma RefusalMovesOn(c: ClientId, a: Account, cl: Client, cl1: Client, m: Content, why: Reason, op: Option<Op>)
    requires cl.pc == Idle && Suits(a, cl) && cl1 == cl.(stack := cl1.stack)
    requires Adding(c, a, Good(m), Failed(why), TopOf(cl1.stack)) == Marked(c, a, op).(stack := cl1.stack)
    ensures MovesOn(c, a, cl, Throw(cl1, why), Good(m), Booked(c, a, op, None, IsOpen(cl), Throw(cl1, why)))
  {
  }

  /** The request is granted at once. */
  lemma SuccessMovesOn(c: ClientId, a: Account, cl: Client, cl1: Client, m: Content, r: Reply)
    requires cl.pc == Idle && Suits(a, cl) && cl1 == cl.(stack := cl1.stack) && (r.Okay? || r.Datum?)
    requires m.kind != BEGIN && m.kind != COMMIT && m.kind != BYE
    requires Adding(c, a, Good(m), r, TopOf(cl1.stack)) == a.(stack := cl1.stack)
    ensures MovesOn(c, a, cl, Respond(cl1, r), Good(m), Booked(c, a, None, None, IsOpen(cl), Respond(cl1, r)))
  {
  }

  lemma CalculateMovesOn(c: ClientId, a: Account, cl: Client, m: Content, op: ArithOp, r: Result)
    requires cl.pc == Idle && Suits(a, cl) && m.kind == RequestFor(op) && Conforms(m) && r == Arith(op, cl.stack)
    ensures var z := Calculate(cl, r);
            z.Some? ==> MovesOn(c, a, cl, z.value, Good(m), Booked(c, a, None, None, IsOpen(cl), z.value))
  {
    match r
    case Next(stack) => SuccessMovesOn(c, a, cl, cl.(stack := stack), m, Okay);
    case Refuse(why, stack) => RefusalMovesOn(c, a, cl, cl.(stack := stack), m, OnStack(why), None);
    case Crash =>
  }

  lemma EntryMovesOn(c: ClientId, a: Account, cl: Client, registry: map<string, TableId>, m: Content)
    requires cl.pc == Idle && Suits(a, cl) && Conforms(m) && m.kind in {PUSH, POP, TOP}
    ensures var r := Dispatch(cl, registry, m);
            r.Some? && MovesOn(c, a, cl, r.value, Good(m), Booked(c, a, None, None, IsOpen(cl), r.value))
  {
    match m.kind
    case PUSH => SuccessMovesOn(c, a, cl, cl.(stack := cl.stack + [m.args[0]]), m, Okay);
    case POP => PopMovesOn(c, a, cl, m);
    case TOP => TopMovesOn(c, a, cl, m);
  }

  lemma PopMovesOn(c: ClientId, a: Account, cl: Client, m: Content)
    requires cl.pc == Idle && Suits(a, cl) && m.kind == POP && Conforms(m)
    ensures MovesOn(c, a, cl, Pop(cl), Good(m), Booked(c, a, None, None, IsOpen(cl), Pop(cl)))
  {
    if cl.stack == [] {
      RefusalMovesOn(c, a, cl, cl, m, OnStack(NothingToPop), None);
    } else {
      SuccessMovesOn(c, a, cl, cl.(stack := cl.stack[..|cl.stack| - 1]), m, Okay);
    }
  }

  lemma TopMovesOn(c: ClientId, a: Account, cl: Client, m: Content)
    requires cl.pc == Idle && Suits(a, cl) && m.kind == TOP && Conforms(m)
    ensures MovesOn(c, a, cl, Top(cl), Good(m), Booked(c, a, None, None, IsOpen(cl), Top(cl)))
  {
    if cl.stack == [] {
      RefusalMovesOn(c, a, cl, cl, m, OnStack(NothingOnTop), None);
    } else if DataFits(cl.stack[|cl.stack| - 1]) {
      SuccessMovesOn(c, a, cl, cl, m, Datum(cl.stack[|cl.stack| - 1]));
    }
  }

  lemma BracketMovesOn(c: ClientId, a: Account, cl: Client, registry: map<string, TableId>, m: Content)
    requires cl.pc == Idle && Suits(a, cl) && Conforms(m) && m.kind in {BEGIN, COMMIT, BYE}
    ensures var r := Dispatch(cl, registry, m);
            r.Some? && MovesOn(c, a, cl, r.value, Good(m), Booked(c, a, None, None, IsOpen(cl), r.value))
  {
  }

  lemma NoRequestMovesOn(c: ClientId, a: Account, cl: Client, registry: map<string, TableId>, m: Content)
    requires cl.pc == Idle && Suits(a, cl) && Conforms(m) && m.kind in {NONE, OK, FAILED, ERROR, DATA}
    ensures var r := Dispatch(cl, registry, m);
            r.Some? && MovesOn(c, a, cl, r.value, Good(m), Booked(c, a, None, None, IsOpen(cl), r.value))
  {
    RefusalMovesOn(c, a, cl, cl, m, NotARequest, None);
  }

  /** A GET or SET that gets as far as its lock, or fails before. */
  lemma ApproachMovesOn(c: ClientId, a: Account, cl: Client, registry: map<string, TableId>, m: Content, op: TableOp)
    requires cl.pc == Idle && Suits(a, cl) && Conforms(m) && m.kind == (if op.GetOp? then GET else SET)
    ensures var z := Approach(cl, registry, m.args[0], op);
            var gone := (op.GetOp? || cl.stack != []) && m.args[0] !in registry;
            MovesOn(c, a, cl, z, Good(m), Booked(c, a, if gone then Some(Absent(m.args[0])) else None, None, IsOpen(cl), z))
  {
    if op.SetOp? && cl.stack == [] {
      RefusalMovesOn(c, a, cl, cl, m, NoValueOnStack, None);
    } else if m.args[0] !in registry {
      RefusalMovesOn(c, a, cl, cl, m, TableNotFound, Some(Absent(m.args[0])));
    }
  }

  lemma DispatchMovesOn(c: ClientId, a: Account, cl: Client, registry: map<string, TableId>, m: Content)
    requires cl.pc == Idle && cl.loggedIn && Suits(a, cl) && Conforms(m) && m.kind != LOGIN
    ensures var r := Dispatch(cl, registry, m);
            r.Some? ==> MovesOn(c, a, cl, r.value, Good(m), Booked(c, a, MissingTable(cl, registry, Good(m)), None, IsOpen(cl), r.value))
  {
    match m.kind
    case ADD => OperatorDispatched(cl, registry, m, Add); CalculateMovesOn(c, a, cl, m, Add, Arith(Add, cl.stack));
    case SUB => OperatorDispatched(cl, registry, m, Sub); CalculateMovesOn(c, a, cl, m, Sub, Arith(Sub, cl.stack));
    case MUL => OperatorDispatched(cl, registry, m, Mul); CalculateMovesOn(c, a, cl, m, Mul, Arith(Mul, cl.stack));
    case DIV => OperatorDispatched(cl, registry, m, Div); CalculateMovesOn(c, a, cl, m, Div, Arith(Div, cl.stack));
    case CREATE =>
    case SET => ApproachMovesOn(c, a, cl, registry, m, SetOp(m.args[1]));
    case GET => ApproachMovesOn(c, a, cl, registry, m, GetOp(m.args[1]));
    case BEGIN => BracketMovesOn(c, a, cl, registry, m);
    case COMMIT => BracketMovesOn(c, a, cl, registry, m);
    case BYE => BracketMovesOn(c, a, cl, registry, m);
    case PUSH => EntryMovesOn(c, a, cl, registry, m);
    case POP => EntryMovesOn(c, a, cl, registry, m);
    case TOP => EntryMovesOn(c, a, cl, registry, m);
    case _ => NoRequestMovesOn(c, a, cl, registry, m);
  }

  /** A line is taken. */
  lemma ServeMovesOn(c: ClientId, a: Account, cl: Client, registry: map<string, TableId>, p: Parsed)
    requires cl.pc == Idle && Suits(a, cl) && (p.Good? ==> Conforms(p.m))
    ensures var r := Serve(cl, registry, p);
            r.Some? ==> MovesOn(c, a, cl, r.value, p, Booked(c, a, MissingTable(cl, registry, p), None, IsOpen(cl), r.value))
  {
    if p.Good? && p.m.kind != LOGIN && cl.loggedIn {
      ServedIsDispatched(cl, registry, p.m);
      DispatchMovesOn(c, a, cl.(lines := cl.lines + 1), registry, p.m);
    } else {
      LoopMovesOn(c, a, cl, registry, p);
    }
  }

  lemma LoopMovesOn(c: ClientId, a: Account, cl: Client, registry: map<string, TableId>, p: Parsed)
    requires cl.pc == Idle && Suits(a, cl) && !(p.Good? && p.m.kind != LOGIN && cl.loggedIn)
    ensures var r := Serve(cl, registry, p);
            r.Some? ==> MovesOn(c, a, cl, r.value, p, Booked(c, a, None, None, IsOpen(cl), r.value))
  {
  }

  /** The operation on its way is the one the line asks for. */
  predicate AimsAt(s: State, op: TableOp, t: TableId, p: Parsed) {
    && p.Good? && Conforms(p.m) && p.m.kind == (if op.GetOp? then GET else SET)
    && t in s.tables && s.tables[t].name == p.m.args[0] && op.key == p.m.args[1]
  }

  predicate Aims(s: State, pc: Pc, p: Parsed) {
    match pc
    case AutoWait(op, t) => AimsAt(s, op, t, p)
    case AutoRun(op, t) => AimsAt(s, op, t, p)
    case TxAcquire(op, t) => AimsAt(s, op, t, p)
    case TxRun(op, t) => AimsAt(s, op, t, p)
    case CreateWait(n) => p.Good? && Conforms(p.m) && p.m.kind == CREATE && p.m.args[0] == n
    case CreateFind(n) => p.Good? && Conforms(p.m) && p.m.kind == CREATE && p.m.args[0] == n
    case CreateInsert(n) => p.Good? && Conforms(p.m) && p.m.kind == CREATE && p.m.args[0] == n
    case _ => true
  }

  lemma AutoRunMovesOn(v: Variant, s: State, c: ClientId, a: Account, cl: Client, pick: nat, p: Parsed)
    requires cl.pc.AutoRun? && !cl.inTx && Suits(a, cl) && AimsAt(s, cl.pc.op, cl.pc.t, p)
    ensures var cl' := Resume(v, s, cl, pick).0;
            MovesOn(c, a, cl, cl', p, Booked(c, a, TableAccess(s, cl), None, IsOpen(cl), cl'))
  {
  }

  lemma TxRunMovesOn(v: Variant, s: State, c: ClientId, a: Account, cl: Client, pick: nat, p: Parsed)
    requires cl.pc.TxRun? && cl.inTx && Suits(a, cl) && AimsAt(s, cl.pc.op, cl.pc.t, p)
    ensures var cl' := Resume(v, s, cl, pick).0;
            MovesOn(c, a, cl, cl', p, Booked(c, a, TableAccess(s, cl), None, IsOpen(cl), cl'))
  {
    if cl.pc.op.SetOp? {
      TxSetMovesOn(v, s, c, a, cl, pick, p);
    } else {
      TxGetMovesOn(v, s, c, a, cl, pick, p);
    }
  }

  lemma TxSetMovesOn(v: Variant, s: State, c: ClientId, a: Account, cl: Client, pick: nat, p: Parsed)
    requires cl.pc.TxRun? && cl.pc.op.SetOp? && cl.inTx && Suits(a, cl) && AimsAt(s, cl.pc.op, cl.pc.t, p)
    ensures var cl' := Resume(v, s, cl, pick).0;
            MovesOn(c, a, cl, cl', p, Booked(c, a, TableAccess(s, cl), None, IsOpen(cl), cl'))
  {
  }

  lemma TxGetMovesOn(v: Variant, s: State, c: ClientId, a: Account, cl: Client, pick: nat, p: Parsed)
    requires cl.pc.TxRun? && cl.pc.op.GetOp? && cl.inTx && Suits(a, cl) && AimsAt(s, cl.pc.op, cl.pc.t, p)
    ensures var cl' := Resume(v, s, cl, pick).0;
            MovesOn(c, a, cl, cl', p, Booked(c, a, TableAccess(s, cl), None, IsOpen(cl), cl'))
  {
    if HasKey(s.tables[cl.pc.t].store, cl.pc.op.key) {
      TxHitMovesOn(v, s, c, a, cl, pick, p);
    } else {
      TxMissMovesOn(v, s, c, a, cl, pick, p);
    }
  }

  lemma TxHitMovesOn(v: Variant, s: State, c: ClientId, a: Account, cl: Client, pick: nat, p: Parsed)
    requires cl.pc.TxRun? && cl.pc.op.GetOp? && cl.inTx && Suits(a, cl) && AimsAt(s, cl.pc.op, cl.pc.t, p)
    requires HasKey(s.tables[cl.pc.t].store, cl.pc.op.key)
    ensures var cl' := Resume(v, s, cl, pick).0;
            MovesOn(c, a, cl, cl', p, Booked(c, a, TableAccess(s, cl), None, IsOpen(cl), cl'))
  {
  }

  lemma TxMissMovesOn(v: Variant, s: State, c: ClientId, a: Account, cl: Client, pick: nat, p: Parsed)
    requires cl.pc.TxRun? && cl.pc.op.GetOp? && cl.inTx && Suits(a, cl) && AimsAt(s, cl.pc.op, cl.pc.t, p)
    requires !HasKey(s.tables[cl.pc.t].store, cl.pc.op.key)
    ensures var cl' := Resume(v, s, cl, pick).0;
            MovesOn(c, a, cl, cl', p, Booked(c, a, TableAccess(s, cl), None, IsOpen(cl), cl'))
  {
  }

  lemma WaitMovesOn(v: Variant, s: State, c: ClientId, a: Account, cl: Client, pick: nat, p: Parsed)
    requires (cl.pc.AutoWait? || cl.pc.CreateWait?) && Suits(a, cl)
    ensures var cl' := Resume(v, s, cl, pick).0;
            MovesOn(c, a, cl, cl', p, Booked(c, a, None, None, IsOpen(cl), cl'))
  {
  }

  lemma TryLockMovesOn(v: Variant, s: State, c: ClientId, a: Account, cl: Client, pick: nat, p: Parsed)
    requires cl.pc.TxAcquire? && cl.inTx && Suits(a, cl) && AimsAt(s, cl.pc.op, cl.pc.t, p)
    ensures var cl' := Resume(v, s, cl, pick).0;
            MovesOn(c, a, cl, cl', p, Booked(c, a, None, None, IsOpen(cl), cl'))
  {
  }

  lemma CreationMovesOn(v: Variant, s: State, c: ClientId, a: Account, cl: Client, pick: nat, p: Parsed)
    requires (cl.pc.CreateFind? || cl.pc.CreateInsert?) && Suits(a, cl) && Aims(s, cl.pc, p)
    ensures var cl' := Resume(v, s, cl, pick).0;
            MovesOn(c, a, cl, cl', p, Booked(c, a, None, Creation(s, c, cl), IsOpen(cl), cl'))
  {
  }

  /** Once the reply is settled, only the end of the transaction may still be due. */
  lemma SettledMovesOn(v: Variant, s: State, c: ClientId, a: Account, cl: Client, pick: nat)
    requires !IsUnsettled(cl.pc) && cl.pc != Idle && Suits(a, cl) && (cl.pc.Closed? ==> !cl.inTx)
    ensures var cl' := Resume(v, s, cl, pick).0;
            && Replied(cl') == Replied(cl) && !IsEnding(cl') && IsLeaving(cl'.pc) == IsLeaving(cl.pc)
            && Booked(c, a, None, None, IsOpen(cl), cl') == if IsEnding(cl) then Concluded(c, a, false) else a
  {
  }

  // ----- one step, on the account -----------------------------------------

  lemma {:induction false} LaterLinesAreIdle(c: ClientId, ps: seq<Parsed>, p: Parsed, rs: seq<Reply>, ws: seq<string>)
    requires |ws| == |rs| <= |ps|
    ensures AccountOf(c, ps + [p], rs, ws) == AccountOf(c, ps, rs, ws)
  {
    if rs != [] {
      var n := |rs| - 1;
      LaterLinesAreIdle(c, ps, p, rs[..n], ws[..n]);
      assert (ps + [p])[n] == ps[n];
    }
  }

  /** Lines, replies and values read tell the account `a`; the line in work, if its reply
      is open, is not told yet. */
  predicate Tells(c: ClientId, cl: Client, ps: seq<Parsed>, ws: seq<string>, a: Account) {
    && |ws| == |Replied(cl)| && |ps| == |ws| + (if IsUnsettled(cl.pc) then 1 else 0)
    && SoFar(c, cl, ps, ws) == a
  }

  /** What the values read become when a reply is settled. */
  function Heeded(cl: Client, cl': Client, ws: seq<string>): seq<string> {
    if Replied(cl') == Replied(cl) then ws else ws + [TopOf(cl'.stack)]
  }

  lemma NextChapter(c: ClientId, ps: seq<Parsed>, rs: seq<Reply>, r: Reply, ws: seq<string>, w: string)
    requires |ws| == |rs| < |ps|
    ensures AccountOf(c, ps, rs + [r], ws + [w]) == Chapter(c, AccountOf(c, ps, rs, ws), ps[|rs|], r, w)
  {
    assert (rs + [r])[..|rs|] == rs && (ws + [w])[..|ws|] == ws;
  }

  lemma SoFarWith(c: ClientId, cl: Client, ps: seq<Parsed>, rs: seq<Reply>, r: Reply, ws: seq<string>, w: string)
    requires |ws| == |rs| < |ps| && Replied(cl) == rs + [r]
    ensures var a := AccountOf(c, ps, rs, ws);
            var b := if IsEnding(cl) then Adding(c, a, ps[|rs|], r, w) else Chapter(c, a, ps[|rs|], r, w);
            SoFar(c, cl, ps, ws + [w]) == if IsLeaving(cl.pc) then Concluded(c, b, false) else b
  {
    NextChapter(c, ps, rs, r, ws, w);
    assert (rs + [r])[..|rs|] == rs && (ws + [w])[..|ws|] == ws;
  }

  lemma TellsMore(c: ClientId, cl: Client, cl': Client, ps: seq<Parsed>, ws: seq<string>, a: Account, p: Parsed, a': Account)
    requires |ws| == |Replied(cl)| && |ps| == |ws| + 1 && ps[|ws|] == p
    requires AccountOf(c, ps, Replied(cl), ws) == a && MovesOn(c, a, cl, cl', p, a')
    ensures Tells(c, cl', ps, Heeded(cl, cl', ws), a')
  {
    if Replied(cl') != Replied(cl) {
      var r, w := Replied(cl')[|Replied(cl)|], TopOf(cl'.stack);
      assert Replied(cl') == Replied(cl) + [r];
      SoFarWith(c, cl', ps, Replied(cl), r, ws, w);
    } else {
      assert !IsEnding(cl') && !IsLeaving(cl'.pc);
    }
  }

  lemma TellsLine(c: ClientId, cl: Client, cl': Client, ps: seq<Parsed>, ws: seq<string>, a: Account, p: Parsed, a': Account)
    requires cl.pc == Idle && Tells(c, cl, ps, ws, a) && MovesOn(c, a, cl, cl', p, a')
    ensures Tells(c, cl', ps + [p], Heeded(cl, cl', ws), a')
  {
    LaterLinesAreIdle(c, ps, p, Replied(cl), ws);
    TellsMore(c, cl, cl', ps + [p], ws, a, p, a');
  }

  lemma TellsWork(c: ClientId, cl: Client, cl': Client, ps: seq<Parsed>, ws: seq<string>, a: Account, a': Account)
    requires IsUnsettled(cl.pc) && Tells(c, cl, ps, ws, a) && MovesOn(c, a, cl, cl', ps[|ws|], a')
    ensures Tells(c, cl', ps, Heeded(cl, cl', ws), a')
  {
    TellsMore(c, cl, cl', ps, ws, a, ps[|ws|], a');
  }

  lemma TellsEnding(c: ClientId, cl: Client, cl': Client, ps: seq<Parsed>, ws: seq<string>, a: Account)
    requires !IsUnsettled(cl.pc) && !IsUnsettled(cl'.pc) && Tells(c, cl, ps, ws, a)
    requires Replied(cl') == Replied(cl) && !IsEnding(cl') && IsLeaving(cl'.pc) == IsLeaving(cl.pc)
    ensures Tells(c, cl', ps, ws, if IsEnding(cl) then Concluded(c, a, false) else a)
  {
    if IsEnding(cl) {
      var rs := Replied(cl);
      var n := |rs| - 1;
      assert rs[..n] + [rs[n]] == rs && ws[..n] + [ws[n]] == ws;
      SoFarWith(c, cl, ps, rs[..n], rs[n], ws[..n], ws[n]);
      SoFarWith(c, cl', ps, rs[..n], rs[n], ws[..n], ws[n]);
      RefusalConcludes(c, AccountOf(c, ps, rs[..n], ws[..n]), ps[n], rs[n], ws[n]);
    }
  }

  lemma RefusalConcludes(c: ClientId, a: Account, p: Parsed, r: Reply, w: string)
    requires r.Failed?
    ensures Chapter(c, a, p, r, w) == Concluded(c, Adding(c, a, p, r, w), false)
  {
  }

  lemma TellsGoodbye(c: ClientId, cl: Client, cl': Client, ps: seq<Parsed>, ws: seq<string>, a: Account)
    requires cl.pc == Idle && Tells(c, cl, ps, ws, a) && Replied(cl') == Replied(cl)
    requires IsLeaving(cl'.pc)
    ensures Tells(c, cl', ps, ws, Concluded(c, a, false))
  {
  }

  // ----- runs -------------------------------------------------------------

  /** Open transactions are recorded as such, and no others. */
  ghost predicate OpenOk(s: State, h: Hist) {
    forall c :: c in h.open <==> c in s.clients && IsOpen(s.clients[c])
  }

  lemma OpenStays(v: Variant, h: Hist, s: State, a: Action)
    requires Enabled(s, a) && OpenOk(s, h)
    ensures OpenOk(Step(v, s, a), Record(v, h, s, a))
  {
    var cl := Move(v, s, a).0;
    ApplyClients(s, a.c, Move(v, s, a));
    NoteKeepsOpen(h, a.c, Observed(s, a));
    var h1 := Note(h, a.c, Observed(s, a));
    var h2 := if Created(s, a).Some? then h1.(log := h1.log + [Created(s, a).value]) else h1;
    BoundOpens(h2, a.c, a.c in s.clients && IsOpen(s.clients[a.c]), cl);
  }

  lemma NoteKeepsOpen(h: Hist, c: ClientId, op: Option<Op>)
    ensures Note(h, c, op).open.Keys == h.open.Keys
  {
  }

  lemma BoundOpens(h: Hist, c: ClientId, before: bool, after: Client)
    requires before <==> c in h.open
    ensures forall d :: d in Bound(h, c, before, after).open <==> if d == c then IsOpen(after) else d in h.open
  {
  }

  /** The history's account of client `c` is what its lines, replies and values tell. */
  ghost predicate AccountOk(s: State, h: Hist, c: ClientId, ps: seq<Parsed>, ws: seq<string>) {
    if c in s.clients then
      && Tells(c, s.clients[c], ps, ws, AccountIn(h, c, s.clients[c]))
      && (IsUnsettled(s.clients[c].pc) ==> Aims(s, s.clients[c].pc, ps[|ws|]))
    else ps == [] && ws == [] && UnitsBy(h.log, c) == [] && c !in h.open
  }

  lemma GoMovesOn(v: Variant, s: State, c: ClientId, a: Account, pick: nat, p: Parsed)
    requires Enabled(s, Act(c, Go(pick))) && ThreadOk(s, s.clients[c])
    requires IsUnsettled(s.clients[c].pc) && Suits(a, s.clients[c]) && Aims(s, s.clients[c].pc, p)
    ensures var cl, cl', act := s.clients[c], Resume(v, s, s.clients[c], pick).0, Act(c, Go(pick));
            MovesOn(c, a, cl, cl', p, Booked(c, a, Observed(s, act), Created(s, act), IsOpen(cl), cl'))
  {
    var cl := s.clients[c];
    match cl.pc
    case AutoRun(_, _) => AutoRunMovesOn(v, s, c, a, cl, pick, p);
    case TxRun(_, _) => TxRunMovesOn(v, s, c, a, cl, pick, p);
    case TxAcquire(_, _) => TryLockMovesOn(v, s, c, a, cl, pick, p);
    case AutoWait(_, _) => WaitMovesOn(v, s, c, a, cl, pick, p);
    case CreateWait(_) => WaitMovesOn(v, s, c, a, cl, pick, p);
    case CreateFind(_) => CreationMovesOn(v, s, c, a, cl, pick, p);
    case CreateInsert(_) => CreationMovesOn(v, s, c, a, cl, pick, p);
    case _ =>
  }

  lemma GoKeepsAim(v: Variant, s: State, cl: Client, pick: nat, p: Parsed)
    requires IsUnsettled(cl.pc) && Aims(s, cl.pc, p)
    ensures Aims(s, Resume(v, s, cl, pick).0.pc, p)
  {
  }

  lemma CalculateAims(s: State, cl: Client, p: Parsed, r: Result)
    requires cl.pc == Idle
    ensures Calculate(cl, r).Some? ==> Aims(s, Calculate(cl, r).value.pc, p)
  {
  }

  lemma DispatchAims(s: State, cl: Client, m: Content)
    requires cl.pc == Idle && Conforms(m) && RegistryOk(s)
    ensures var r := Dispatch(cl, s.registry, m); r.Some? ==> Aims(s, r.value.pc, Good(m))
  {
    match m.kind
    case ADD => CalculateAims(s, cl, Good(m), Arith(Add, cl.stack));
    case SUB => CalculateAims(s, cl, Good(m), Arith(Sub, cl.stack));
    case MUL => CalculateAims(s, cl, Good(m), Arith(Mul, cl.stack));
    case DIV => CalculateAims(s, cl, Good(m), Arith(Div, cl.stack));
    case _ =>
  }

  lemma ServeAims(s: State, cl: Client, p: Parsed)
    requires cl.pc == Idle && RegistryOk(s) && (p.Good? ==> Conforms(p.m))
    ensures var r := Serve(cl, s.registry, p); r.Some? ==> Aims(s, r.value.pc, p)
  {
    if p.Good? && p.m.kind != LOGIN && cl.loggedIn {
      ServedIsDispatched(cl, s.registry, p.m);
      DispatchAims(s, cl.(lines := cl.lines + 1), p.m);
    }
  }

  lemma AimStays(s: State, z: State, pc: Pc, p: Parsed)
    requires Aims(s, pc, p) && forall t | t in s.tables :: t in z.tables && z.tables[t].name == s.tables[t].name
    ensures Aims(z, pc, p)
  {
  }

  lemma {:induction false} RequestAccount(v: Variant, h: Hist, s: State, c: ClientId, text: string, p: Parsed, ps: seq<Parsed>, ws: seq<string>)
    returns (ws': seq<string>)
    requires var a := Act(c, Request(text));
             Enabled(s, a) && Observed(s, a) == MissingTable(s.clients[c], s.registry, p)
    requires HoldInv(s) && OpenOk(s, h) && AccountOk(s, h, c, ps, ws) && (p.Good? ==> Conforms(p.m))
    requires Serve(s.clients[c], s.registry, p) == Some(Move(v, s, Act(c, Request(text))).0)
    ensures var a, cl := Act(c, Request(text)), Move(v, s, Act(c, Request(text))).0;
            && Tells(c, cl, ps + [p], ws', AccountIn(Record(v, h, s, a), c, cl))
            && (IsUnsettled(cl.pc) ==> Aims(s, cl.pc, (ps + [p])[|ws'|]))
  {
    var a, was, cl := Act(c, Request(text)), s.clients[c], Move(v, s, Act(c, Request(text))).0;
    var before := AccountIn(h, c, was);
    RecordsAccount(v, h, s, a, was, c);
    ServeMovesOn(c, before, was, s.registry, p);
    ServeAims(s, was, p);
    TellsLine(c, was, cl, ps, ws, before, p, AccountIn(Record(v, h, s, a), c, cl));
    ws' := Heeded(was, cl, ws);
  }

  lemma {:induction false} GoAccount(v: Variant, h: Hist, s: State, c: ClientId, pick: nat, ps: seq<Parsed>, ws: seq<string>)
    returns (ws': seq<string>)
    requires Enabled(s, Act(c, Go(pick))) && HoldInv(s) && OpenOk(s, h) && AccountOk(s, h, c, ps, ws)
    ensures var a, cl := Act(c, Go(pick)), Move(v, s, Act(c, Go(pick))).0;
            && Tells(c, cl, ps, ws', AccountIn(Record(v, h, s, a), c, cl))
            && (IsUnsettled(cl.pc) ==> Aims(s, cl.pc, ps[|ws'|]))
  {
    var a, was := Act(c, Go(pick)), s.clients[c];
    var cl := Resume(v, s, was, pick).0;
    assert ThreadOk(s, was);
    RecordsAccount(v, h, s, a, was, c);
    var before, after := AccountIn(h, c, was), AccountIn(Record(v, h, s, a), c, cl);
    if IsUnsettled(was.pc) {
      ws' := WorkAccount(v, s, c, pick, ps, ws, before, after);
    } else {
      SettledAccount(v, s, c, pick, ps, ws, before, after);
      ws' := ws;
    }
  }

  lemma {:induction false} WorkAccount(v: Variant, s: State, c: ClientId, pick: nat, ps: seq<Parsed>, ws: seq<string>, before: Account, after: Account)
    returns (ws': seq<string>)
    requires Enabled(s, Act(c, Go(pick))) && ThreadOk(s, s.clients[c]) && IsUnsettled(s.clients[c].pc)
    requires Suits(before, s.clients[c]) && Tells(c, s.clients[c], ps, ws, before) && Aims(s, s.clients[c].pc, ps[|ws|])
    requires var a, cl := Act(c, Go(pick)), s.clients[c];
             after == Booked(c, before, Observed(s, a), Created(s, a), IsOpen(cl), Resume(v, s, cl, pick).0)
    ensures var cl := Resume(v, s, s.clients[c], pick).0;
            Tells(c, cl, ps, ws', after) && (IsUnsettled(cl.pc) ==> Aims(s, cl.pc, ps[|ws'|]))
  {
    var cl := Resume(v, s, s.clients[c], pick).0;
    GoMovesOn(v, s, c, before, pick, ps[|ws|]);
    GoKeepsAim(v, s, s.clients[c], pick, ps[|ws|]);
    TellsWork(c, s.clients[c], cl, ps, ws, before, after);
    ws' := Heeded(s.clients[c], cl, ws);
  }

  lemma {:induction false} SettledAccount(v: Variant, s: State, c: ClientId, pick: nat, ps: seq<Parsed>, ws: seq<string>, before: Account, after: Account)
    requires Enabled(s, Act(c, Go(pick))) && !IsUnsettled(s.clients[c].pc)
    requires Suits(before, s.clients[c]) && Tells(c, s.clients[c], ps, ws, before)
    requires after == Booked(c, before, None, None, IsOpen(s.clients[c]), Resume(v, s, s.clients[c], pick).0)
    ensures var cl := Resume(v, s, s.clients[c], pick).0; !IsUnsettled(cl.pc) && Tells(c, cl, ps, ws, after)
  {
    SettledMovesOn(v, s, c, before, s.clients[c], pick);
    SettledStays(v, s, s.clients[c], pick);
    TellsEnding(c, s.clients[c], Resume(v, s, s.clients[c], pick).0, ps, ws, before);
  }

  lemma SettledStays(v: Variant, s: State, cl: Client, pick: nat)
    requires !IsUnsettled(cl.pc)
    ensures !IsUnsettled(Resume(v, s, cl, pick).0.pc)
  {
  }

  lemma {:induction false} EofAccount(v: Variant, h: Hist, s: State, c: ClientId, ps: seq<Parsed>, ws: seq<string>)
    requires Enabled(s, Act(c, Eof)) && HoldInv(s) && OpenOk(s, h) && AccountOk(s, h, c, ps, ws)
    ensures var a, cl := Act(c, Eof), Move(v, s, Act(c, Eof)).0;
            Tells(c, cl, ps, ws, AccountIn(Record(v, h, s, a), c, cl)) && !IsUnsettled(cl.pc)
  {
    var a, was, cl := Act(c, Eof), s.clients[c], Move(v, s, Act(c, Eof)).0;
    RecordsAccount(v, h, s, a, was, c);
    TellsGoodbye(c, was, cl, ps, ws, AccountIn(h, c, was));
  }

  lemma {:induction false} ConnectAccount(v: Variant, h: Hist, s: State, c: ClientId)
    requires Enabled(s, Act(c, Connect)) && OpenOk(s, h) && AccountOk(s, h, c, [], [])
    ensures var a := Act(c, Connect); Tells(c, NEW_CLIENT, [], [], AccountIn(Record(v, h, s, a), c, NEW_CLIENT))
  {
    RecordsAccount(v, h, s, Act(c, Connect), NEW_CLIENT, c);
  }

  /** Somebody else moves. */
  lemma {:induction false} OtherAccount(v: Variant, h: Hist, s: State, a: Action, c: ClientId, ps: seq<Parsed>, ws: seq<string>)
    requires Enabled(s, a) && a.c != c && HoldInv(s) && OpenOk(s, h) && AccountOk(s, h, c, ps, ws)
    ensures AccountOk(Step(v, s, a), Record(v, h, s, a), c, ps, ws)
  {
    var z := Step(v, s, a);
    ApplyClients(s, a.c, Move(v, s, a));
    RecordsAccount(v, h, s, a, Move(v, s, a).0, c);
    OpenStays(v, h, s, a);
    StepExtends(v, s, a);
    if c in s.clients && IsUnsettled(s.clients[c].pc) {
      AimStays(s, z, s.clients[c].pc, ps[|ws|]);
    }
  }

  /** The account of the client that moves. */
  lemma {:induction false} MoverAccount(v: Variant, h: Hist, s: State, a: Action, ps: seq<Parsed>, ws: seq<string>) returns (ws': seq<string>)
    requires Enabled(s, a) && HoldInv(s) && OpenOk(s, h) && AccountOk(s, h, a.c, ps, ws) && Move(v, s, a).1 != Crashes
    ensures var qs, cl := ps + (if a.input.Request? then [Parse(a.input.text)] else []), Move(v, s, a).0;
            && Tells(a.c, cl, qs, ws', AccountIn(Record(v, h, s, a), a.c, cl))
            && (IsUnsettled(cl.pc) ==> Aims(s, cl.pc, qs[|ws'|]))
  {
    ws' := ws;
    assert ps + [] == ps;
    match a.input
    case Connect => ConnectAccount(v, h, s, a.c);
    case Request(text) =>
      ParsedConforms(text);
      ws' := RequestAccount(v, h, s, a.c, text, Parse(text), ps, ws);
    case Eof => EofAccount(v, h, s, a.c, ps, ws);
    case Go(pick) => ws' := GoAccount(v, h, s, a.c, pick, ps, ws);
  }

  lemma {:induction false} MoverAccountStays(v: Variant, h: Hist, s: State, a: Action, cl: Client, qs: seq<Parsed>, ws: seq<string>)
    requires Enabled(s, a) && HoldInv(s) && cl == Move(v, s, a).0 && Tells(a.c, cl, qs, ws, AccountIn(h, a.c, cl))
    requires IsUnsettled(cl.pc) ==> Aims(s, cl.pc, qs[|ws|])
    ensures AccountOk(Step(v, s, a), h, a.c, qs, ws)
  {
    ApplyClients(s, a.c, Move(v, s, a));
    StepExtends(v, s, a);
    if IsUnsettled(cl.pc) {
      AimStays(s, Step(v, s, a), cl.pc, qs[|ws|]);
    }
  }

  lemma {:induction false} StepKeepsAccount(v: Variant, h: Hist, s: State, a: Action, c: ClientId, ps: seq<Parsed>, ws: seq<string>)
    returns (ws': seq<string>)
    requires Enabled(s, a) && HoldInv(s) && OpenOk(s, h) && AccountOk(s, h, c, ps, ws) && Move(v, s, a).1 != Crashes
    ensures AccountOk(Step(v, s, a), Record(v, h, s, a), c,
                      ps + (if a.c == c && a.input.Request? then [Parse(a.input.text)] else []), ws')
  {
    ws' := ws;
    if a.c == c {
      ws' := MoverAccount(v, h, s, a, ps, ws);
      MoverAccountStays(v, Record(v, h, s, a), s, a, Move(v, s, a).0,
                        ps + (if a.input.Request? then [Parse(a.input.text)] else []), ws');
    } else {
      assert ps + [] == ps;
      OtherAccount(v, h, s, a, c, ps, ws);
    }
  }

  /** On every run of a server that starts empty and is still up, for every client: its
      lines, its replies and the values its GETs have put on its stack, `ws`, tell its
      stack, and exactly the units the history has for it, open transaction included. */
  lemma {:induction false} HistoryIsLived(v: Variant, run: seq<Action>, c: ClientId) returns (ws: seq<string>)
    requires Legal(v, EMPTY_SERVER, run) && !After(v, EMPTY_SERVER, run).crashed
    ensures OpenOk(After(v, EMPTY_SERVER, run), HistoryOf(v, EMPTY_SERVER, run))
    ensures AccountOk(After(v, EMPTY_SERVER, run), HistoryOf(v, EMPTY_SERVER, run), c, Heard(run, c), ws)
  {
    ws := [];
    if run != [] {
      var n := |run| - 1;
      var y, h := After(v, EMPTY_SERVER, run[..n]), HistoryOf(v, EMPTY_SERVER, run[..n]);
      LastAction(v, EMPTY_SERVER, run);
      ws := HistoryIsLived(v, run[..n], c);
      HoldingsOnEveryRun(v, EMPTY_SERVER, run[..n]);
      ApplyCrashes(y, run[n].c, Move(v, y, run[n]));
      OpenStays(v, h, y, run[n]);
      ws := StepKeepsAccount(v, h, y, run[n], c, Heard(run[..n], c), ws);
    }
  }

  /** Between its requests, in particular. */
  lemma {:induction false} IdleHistoryIsLived(v: Variant, run: seq<Action>, c: ClientId) returns (ws: seq<string>)
    requires Legal(v, EMPTY_SERVER, run) && !After(v, EMPTY_SERVER, run).crashed
    requires c in After(v, EMPTY_SERVER, run).clients && After(v, EMPTY_SERVER, run).clients[c].pc == Idle
    ensures var cl, h := After(v, EMPTY_SERVER, run).clients[c], HistoryOf(v, EMPTY_SERVER, run);
            && |ws| == |cl.sent| == |Heard(run, c)|
            && AccountOf(c, Heard(run, c), cl.sent, ws) == Account(cl.stack, UnitsBy(h.log, c), OpenBy(h, c))
  {
    ws := HistoryIsLived(v, run, c);
    var cl := After(v, EMPTY_SERVER, run).clients[c];
    assert cl.sent + [] == cl.sent;
    assert Tells(c, cl, Heard(run, c), ws, AccountIn(HistoryOf(v, EMPTY_SERVER, run), c, cl));
  }
}
