/** Who holds what, as far as it is true of every run, of the code as written too:
    whoever owns a lock is there to give it back. Exclusive ownership is the subject
    of module Locks. */
module Holdings {
  import opened Engine
  import opened Messages
  import opened StackMachine
  import opened Tables
  import opened Wrappers

  // ----- the invariant ----------------------------------------------------

  /** The tables a client has locked, read off its own variables: the one it is
      in the middle of an autocommit operation on, what a COMMIT or abort has not
      released yet, or else `locked_tables`. */
  function Held(cl: Client): set<TableId> {
    match cl.pc
    case AutoRun(_, t) => {t}
    case AutoCommit(t) => {t}
    case AutoUnlock(t, _) => {t}
    case Releasing(_, todo, _, _) => todo
    case _ => cl.locked
  }

  /** The tables a client is still going to unlock. */
  function Grip(cl: Client): set<TableId> {
    match cl.pc
    case Stray(t) => cl.locked + {t}
    case _ => Held(cl)
  }

  predicate HoldsServer(cl: Client) {
    cl.pc.CreateFind? || cl.pc.CreateInsert? || cl.pc.CreateUnlock?
  }

  predicate OpFits(cl: Client, op: TableOp) {
    op.SetOp? ==> cl.stack != []
  }

  /** A client's variables agree with its program counter. */
  predicate ThreadOk(s: State, cl: Client) {
    && (!cl.inTx ==> cl.locked == {})
    && cl.locked <= s.tables.Keys
    && match cl.pc
       case AutoWait(op, t) => !cl.inTx && t in s.tables && OpFits(cl, op)
       case AutoRun(op, t) => !cl.inTx && t in s.tables && OpFits(cl, op)
       case AutoCommit(t) => !cl.inTx && t in s.tables
       case AutoUnlock(t, _) => !cl.inTx && t in s.tables
       case TxAcquire(op, t) => cl.inTx && t in s.tables && OpFits(cl, op)
       case TxRun(op, t) => cl.inTx && t in cl.locked && OpFits(cl, op)
       case Stray(t) => t in s.tables && (cl.inTx ==> t in cl.locked)
       case Releasing(_, todo, stage, _) => cl.inTx && todo <= cl.locked && (stage.Some? ==> stage.value in todo)
       case CreateInsert(n) => n !in s.registry
       case Closed => !cl.inTx
       case _ => true
  }

  /** Names and tables are in one-to-one correspondence. */
  predicate RegistryOk(s: State) {
    && (forall n | n in s.registry :: s.registry[n] in s.tables && s.tables[s.registry[n]].name == n)
    && (forall t | t in s.tables :: s.tables[t].name in s.registry && s.registry[s.tables[t].name] == t)
  }

  /** Whoever owns a table is going to unlock it. */
  predicate OwnersGrip(s: State) {
    forall t | t in s.tables && s.tables[t].owner.Some? ::
      s.tables[t].owner.value in s.clients && t in Grip(s.clients[s.tables[t].owner.value])
  }

  /** The server mutex is owned by exactly the client that has it. */
  predicate ServerOk(s: State) {
    && (s.server.Some? ==> s.server.value in s.clients && HoldsServer(s.clients[s.server.value]))
    && (forall c | c in s.clients && HoldsServer(s.clients[c]) :: s.server == Some(c))
  }

  predicate HoldInv(s: State) {
    && RegistryOk(s)
    && (forall c | c in s.clients :: ThreadOk(s, s.clients[c]))
    && OwnersGrip(s)
    && ServerOk(s)
  }

  /** A server at rest: no thread is inside a request, no transaction is open, no
      lock is taken, and proposals only repeat what is committed. The empty server
      is one; so is every moment of a run at which all clients are idle. */
  predicate AtRest(s: State) {
    && RegistryOk(s)
    && s.server == None
    && (forall t | t in s.tables :: s.tables[t].owner == None && Shows(s.tables[t].store, map[]))
    && (forall c | c in s.clients ::
          (s.clients[c].pc == Idle || s.clients[c].pc == Closed) && !s.clients[c].inTx && s.clients[c].locked == {})
  }

  lemma RestingHolds(s: State)
    requires AtRest(s)
    ensures HoldInv(s)
  {
  }

  // ----- every effect keeps it --------------------------------------------

  function Before(s: State, c: ClientId): Client {
    if c in s.clients then s.clients[c] else NEW_CLIENT
  }

  /** How a client's holdings change when a step has effect `e`. */
  predicate Fits(s: State, c: ClientId, cl: Client, e: Effect) {
    var was := Before(s, c);
    match e
    case Nothing => Grip(cl) == Grip(was) && HoldsServer(cl) == HoldsServer(was)
    case Locks(t) =>
      && t in s.tables && s.tables[t].owner == None
      && Grip(cl) == Grip(was) + {t} && HoldsServer(cl) == HoldsServer(was)
    case Unlocks(t) =>
      && t in Grip(was) && Grip(was) - {t} <= Grip(cl) <= Grip(was) && HoldsServer(cl) == HoldsServer(was)
      && (if was.pc.Stray? then was.pc.t == t else Grip(cl) == Grip(was) - {t})
    case Edits(t, _) =>
      t in Grip(was) && Grip(cl) == Grip(was) && HoldsServer(cl) == HoldsServer(was)
    case LocksServer => s.server == None && Grip(cl) == Grip(was) && HoldsServer(cl)
    case UnlocksServer => HoldsServer(was) && Grip(cl) == Grip(was) && !HoldsServer(cl)
    case Inserts(n, id) =>
      HoldsServer(was) && HoldsServer(cl) && Grip(cl) == Grip(was) && n !in s.registry && id !in s.tables
    case Crashes => Grip(cl) == Grip(was) && HoldsServer(cl) == HoldsServer(was)
  }

  lemma OwnersKept(s: State, c: ClientId, cl: Client, e: Effect)
    requires OwnersGrip(s) && Fits(s, c, cl, e)
    ensures OwnersGrip(Apply(s, c, cl, e))
  {
  }

  lemma ServerKept(s: State, c: ClientId, cl: Client, e: Effect)
    requires ServerOk(s) && Fits(s, c, cl, e)
    ensures ServerOk(Apply(s, c, cl, e))
  {
  }

  lemma RegistryKept(s: State, c: ClientId, cl: Client, e: Effect)
    requires RegistryOk(s) && Fits(s, c, cl, e)
    ensures RegistryOk(Apply(s, c, cl, e))
  {
  }

  /** The step of one client leaves every other client consistent. */
  lemma BystanderOk(s: State, c: ClientId, cl: Client, e: Effect, d: ClientId)
    requires ServerOk(s) && Fits(s, c, cl, e)
    requires d in s.clients && d != c && ThreadOk(s, s.clients[d])
    ensures ThreadOk(Apply(s, c, cl, e), s.clients[d])
  {
  }

  lemma HoldingsKept(s: State, c: ClientId, cl: Client, e: Effect)
    requires HoldInv(s) && MoveIsFine(s, c, (cl, e))
    ensures HoldInv(Apply(s, c, cl, e))
  {
    OwnersKept(s, c, cl, e);
    ServerKept(s, c, cl, e);
    RegistryKept(s, c, cl, e);
    var s' := Apply(s, c, cl, e);
    forall d | d in s'.clients ensures ThreadOk(s', s'.clients[d]) {
      if d != c {
        BystanderOk(s, c, cl, e, d);
      }
    }
  }

  // ----- every move has such an effect ------------------------------------

  /** The client is as it should be and holds what it has locked. */
  predicate StillFits(s: State, locked: set<TableId>, cl: Client) {
    ThreadOk(s, cl) && !cl.pc.Stray? && Held(cl) == locked && !HoldsServer(cl)
  }

  lemma AbortFits(s: State, cl: Client, e: Ending)
    requires (!cl.inTx ==> cl.locked == {}) && cl.locked <= s.tables.Keys
    ensures StillFits(s, cl.locked, Abort(cl, e))
  {
  }

  /** Whatever a line says, serving it takes and frees no lock. */
  lemma ServeFits(s: State, cl: Client, p: Parsed)
    requires RegistryOk(s) && ThreadOk(s, cl) && cl.pc == Idle
    requires Serve(cl, s.registry, p).Some?
    ensures StillFits(s, cl.locked, Serve(cl, s.registry, p).value)
  {
    if p.Good? && p.m.kind != LOGIN && cl.loggedIn {
      ServedIsDispatched(cl, s.registry, p.m);
      DispatchFits(s, cl.(lines := cl.lines + 1), p.m);
    } else {
      ServeOutsideFits(s, cl, p);
    }
  }

  lemma ServeOutsideFits(s: State, cl: Client, p: Parsed)
    requires ThreadOk(s, cl) && cl.pc == Idle
    requires Serve(cl, s.registry, p).Some?
    requires p.Good? ==> p.m.kind == LOGIN || !cl.loggedIn
    ensures StillFits(s, cl.locked, Serve(cl, s.registry, p).value)
  {
  }

  lemma DispatchFits(s: State, cl: Client, m: Content)
    requires RegistryOk(s) && ThreadOk(s, cl) && cl.pc == Idle
    ensures Dispatch(cl, s.registry, m).Some? ==> StillFits(s, cl.locked, Dispatch(cl, s.registry, m).value)
  {
    match m.kind
    case ADD => CalculateFits(s, cl, Arith(Add, cl.stack));
    case SUB => CalculateFits(s, cl, Arith(Sub, cl.stack));
    case MUL => CalculateFits(s, cl, Arith(Mul, cl.stack));
    case DIV => CalculateFits(s, cl, Arith(Div, cl.stack));
    case SET => if |m.args| >= 2 { ApproachFits(s, cl, m.args[0], SetOp(m.args[1])); }
    case GET => if |m.args| >= 2 { ApproachFits(s, cl, m.args[0], GetOp(m.args[1])); }
    case _ => DispatchElseFits(s, cl, m);
  }

  lemma ApproachFits(s: State, cl: Client, name: string, op: TableOp)
    requires RegistryOk(s) && ThreadOk(s, cl) && cl.pc == Idle
    ensures StillFits(s, cl.locked, Approach(cl, s.registry, name, op))
  {
  }

  lemma DispatchElseFits(s: State, cl: Client, m: Content)
    requires ThreadOk(s, cl) && cl.pc == Idle && m.kind !in {ADD, SUB, MUL, DIV, SET, GET}
    ensures Dispatch(cl, s.registry, m).Some? ==> StillFits(s, cl.locked, Dispatch(cl, s.registry, m).value)
  {
    match m.kind
    case TOP => TopFits(s, cl);
    case POP => PopFits(s, cl);
    case BYE => AbortFits(s, cl.(sent := cl.sent + [Okay]), Ending(None, true));
    case CREATE =>
    case BEGIN => AbortFits(s, cl, Ending(Some(Failed(NestedTransaction)), false));
    case COMMIT => AbortFits(s, cl, Ending(Some(Failed(NoTransaction)), false));
    case PUSH =>
    case _ => AbortFits(s, cl, Ending(Some(Failed(NotARequest)), false));
  }

  lemma TopFits(s: State, cl: Client)
    requires ThreadOk(s, cl) && cl.pc == Idle
    ensures StillFits(s, cl.locked, Top(cl))
  {
  }

  lemma PopFits(s: State, cl: Client)
    requires ThreadOk(s, cl) && cl.pc == Idle
    ensures StillFits(s, cl.locked, Pop(cl))
  {
  }

  lemma CalculateFits(s: State, cl: Client, r: Result)
    requires ThreadOk(s, cl) && cl.pc == Idle
    ensures Calculate(cl, r).Some? ==> StillFits(s, cl.locked, Calculate(cl, r).value)
  {
  }

  predicate InAutocommit(pc: Pc) {
    pc.AutoWait? || pc.AutoRun? || pc.AutoCommit? || pc.AutoUnlock?
  }

  predicate InCreate(pc: Pc) {
    pc.CreateWait? || pc.CreateFind? || pc.CreateInsert? || pc.CreateUnlock?
  }

  ghost predicate MoveIsFine(s: State, c: ClientId, m: (Client, Effect)) {
    Fits(s, c, m.0, m.1) && ThreadOk(Apply(s, c, m.0, m.1), m.0)
  }

  lemma AutocommitFits(v: Variant, s: State, c: ClientId, cl: Client, pick: nat)
    requires c in s.clients && cl == s.clients[c] && ThreadOk(s, cl) && InAutocommit(cl.pc)
    requires cl.pc.AutoWait? ==> s.tables[cl.pc.t].owner == None
    ensures MoveIsFine(s, c, Resume(v, s, cl, pick))
  {
  }

  lemma TxAcquireFits(v: Variant, s: State, c: ClientId, cl: Client, pick: nat)
    requires c in s.clients && cl == s.clients[c] && ThreadOk(s, cl) && cl.pc.TxAcquire?
    ensures MoveIsFine(s, c, Resume(v, s, cl, pick))
  {
  }

  lemma TxRunFits(v: Variant, s: State, c: ClientId, cl: Client, pick: nat)
    requires c in s.clients && cl == s.clients[c] && ThreadOk(s, cl) && cl.pc.TxRun?
    ensures MoveIsFine(s, c, Resume(v, s, cl, pick))
  {
  }

  lemma StrayFits(v: Variant, s: State, c: ClientId, cl: Client, pick: nat)
    requires c in s.clients && cl == s.clients[c] && ThreadOk(s, cl) && cl.pc.Stray?
    ensures MoveIsFine(s, c, Resume(v, s, cl, pick))
  {
  }

  lemma ReleaseFits(v: Variant, s: State, c: ClientId, cl: Client, pick: nat)
    requires c in s.clients && cl == s.clients[c] && ThreadOk(s, cl) && cl.pc.Releasing?
    requires cl.pc.stage == None && cl.pc.todo != {} ==> pick in cl.pc.todo
    ensures MoveIsFine(s, c, Resume(v, s, cl, pick))
  {
  }

  lemma CreateFits(v: Variant, s: State, c: ClientId, cl: Client, pick: nat)
    requires c in s.clients && cl == s.clients[c] && ThreadOk(s, cl) && InCreate(cl.pc)
    requires cl.pc.CreateWait? ==> s.server == None
    requires cl.pc.CreateInsert? ==> pick !in s.tables
    ensures MoveIsFine(s, c, Resume(v, s, cl, pick))
  {
    if cl.pc.CreateInsert? {
      InsertFits(v, s, c, cl, pick);
    } else if cl.pc.CreateUnlock? {
      CreateUnlockFits(v, s, c, cl, pick);
    }
  }

  lemma InsertFits(v: Variant, s: State, c: ClientId, cl: Client, pick: nat)
    requires c in s.clients && cl == s.clients[c] && ThreadOk(s, cl) && cl.pc.CreateInsert? && pick !in s.tables
    ensures MoveIsFine(s, c, Resume(v, s, cl, pick))
  {
  }

  lemma CreateUnlockFits(v: Variant, s: State, c: ClientId, cl: Client, pick: nat)
    requires c in s.clients && cl == s.clients[c] && ThreadOk(s, cl) && cl.pc.CreateUnlock?
    ensures MoveIsFine(s, c, Resume(v, s, cl, pick))
  {
    AbortFits(s, cl, Ending(Some(Failed(TableExists)), false));
  }

  lemma ResumeFits(v: Variant, s: State, c: ClientId, pick: nat)
    requires HoldInv(s) && Enabled(s, Act(c, Go(pick)))
    ensures MoveIsFine(s, c, Resume(v, s, s.clients[c], pick))
  {
    var cl := s.clients[c];
    assert ThreadOk(s, cl);
    if InAutocommit(cl.pc) {
      AutocommitFits(v, s, c, cl, pick);
    } else if InCreate(cl.pc) {
      CreateFits(v, s, c, cl, pick);
    } else if cl.pc.Releasing? {
      ReleaseFits(v, s, c, cl, pick);
    } else if cl.pc.TxAcquire? {
      TxAcquireFits(v, s, c, cl, pick);
    } else if cl.pc.TxRun? {
      TxRunFits(v, s, c, cl, pick);
    } else {
      StrayFits(v, s, c, cl, pick);
    }
  }

  lemma ReceiveFits(s: State, c: ClientId, p: Parsed)
    requires HoldInv(s) && c in s.clients && s.clients[c].pc == Idle
    ensures MoveIsFine(s, c, Receive(s, s.clients[c], p))
  {
    if Serve(s.clients[c], s.registry, p).Some? {
      ServeFits(s, s.clients[c], p);
    }
  }

  /** Every step of every client, with or without line 433. */
  lemma MoveFits(v: Variant, s: State, a: Action)
    requires HoldInv(s) && Enabled(s, a)
    ensures MoveIsFine(s, a.c, Move(v, s, a))
  {
    match a.input
    case Connect =>
    case Request(text) => ReceiveFits(s, a.c, Parse(text));
    case Eof => AbortFits(s, s.clients[a.c], Ending(None, true));
    case Go(pick) => ResumeFits(v, s, a.c, pick);
  }

  lemma StepKeepsHoldings(v: Variant, s: State, a: Action)
    requires HoldInv(s) && Enabled(s, a)
    ensures HoldInv(Step(v, s, a)) && MoveIsFine(s, a.c, Move(v, s, a))
  {
    MoveFits(v, s, a);
    HoldingsKept(s, a.c, Move(v, s, a).0, Move(v, s, a).1);
  }

  /** On every run that starts at rest, of the code as written too, whatever the
      clients send and however they interleave: names and tables correspond, the
      server mutex has its rightful owner, and whoever owns a table is going to
      unlock it. */
  lemma {:induction false} HoldingsOnEveryRun(v: Variant, s: State, run: seq<Action>)
    requires AtRest(s) && Legal(v, s, run)
    ensures HoldInv(After(v, s, run))
  {
    if run == [] {
      RestingHolds(s);
    } else {
      var n := |run| - 1;
      HoldingsOnEveryRun(v, s, run[..n]);
      StepKeepsHoldings(v, After(v, s, run[..n]), run[n]);
    }
  }
}
