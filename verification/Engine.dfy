/** The server as a state machine: any number of clients, each running the code
    of client_connection.cpp, over shared tables and a shared registry. Every
    lock, trylock, unlock, lookup, insertion and per-table commit or rollback is
    a step of its own; what a client does on its own data is one step. */
module Engine {
  import opened Codec
  import opened Messages
  import opened StackMachine
  import opened Tables
  import opened Text
  import opened Wrappers

  type ClientId = nat
  type TableId = nat

  /** The code as it stands, or the code without the unlock in `get_table_value`
      (client_connection.cpp, line 433), which every caller repeats. */
  datatype Variant = AsWritten | Line433Dropped

  /** One value per exception text. */
  datatype Reason =
    | OnStack(refusal: Refusal) | NoValueOnStack | TableNotFound | KeyNotFound | TableBusy
    | NestedTransaction | NoTransaction | TableExists | NotARequest | NotLoggedIn
    | BadLine(why: Complaint)

  datatype Reply = Okay | Datum(v: string) | Failed(why: Reason) | Error(why: Reason)

  datatype TableOp = GetOp(key: string) | SetOp(key: string)

  /** How a COMMIT or an abort ends: the reply to send, and whether the session is over. */
  datatype Ending = Ending(reply: Option<Reply>, close: bool)

  /** Where a client's thread is. */
  datatype Pc =
    | Idle                                     // waiting for the next line
    | AutoWait(op: TableOp, t: TableId)        // autocommit: in lock()
    | AutoRun(op: TableOp, t: TableId)         // autocommit: lock held, operation next
    | AutoCommit(t: TableId)                   // autocommit: commit_changes next
    | AutoUnlock(t: TableId, reply: Reply)     // autocommit: unlock, then reply
    | TxAcquire(op: TableOp, t: TableId)       // transaction: trylock unless held
    | TxRun(op: TableOp, t: TableId)           // transaction: operation next
    | Stray(t: TableId)                        // the unlock of line 433 next
    | Releasing(commit: bool, todo: set<TableId>, stage: Option<TableId>, ending: Ending)
    | CreateWait(name: string)                 // in the server's lock()
    | CreateFind(name: string)
    | CreateInsert(name: string)
    | CreateUnlock(failed: bool)
    | Closed

  datatype Client = Client(
    pc: Pc,
    loggedIn: bool,
    inTx: bool,
    locked: set<TableId>,
    stack: seq<string>,
    lines: nat,          // request lines taken from the socket
    sent: seq<Reply>     // replies written to the socket
  )

  const NEW_CLIENT := Client(Idle, false, false, {}, [], 0, [])

  datatype TableRecord = TableRecord(name: string, owner: Option<ClientId>, store: Store)

  datatype State = State(
    clients: map<ClientId, Client>,
    tables: map<TableId, TableRecord>,
    registry: map<string, TableId>,
    server: Option<ClientId>,     // owner of the server mutex
    crashed: bool
  )

  const EMPTY_SERVER := State(map[], map[], map[], None, false)

  // ----- what one client does ---------------------------------------------

  function Respond(cl: Client, r: Reply): Client {
    cl.(pc := Idle, sent := cl.sent + [r])
  }

  /** The end of `handle_commit` or `fail_transaction`, and what follows it. */
  function Finish(cl: Client, e: Ending): Client {
    cl.(pc := if e.close then Closed else Idle, inTx := false, locked := {},
        sent := if e.reply.Some? then cl.sent + [e.reply.value] else cl.sent)
  }

  /** `manage_exception` and the destructor: roll back first if in a transaction. */
  function Abort(cl: Client, e: Ending): Client {
    if cl.inTx then cl.(pc := Releasing(false, cl.locked, None, e)) else Finish(cl, e)
  }

  /** A recoverable exception thrown by a handler. */
  function Throw(cl: Client, why: Reason): Client {
    Abort(cl, Ending(Some(Failed(why)), false))
  }

  /** Reply, leave the session loop, and let the destructor clean up. */
  function Quit(cl: Client, r: Reply): Client {
    Abort(cl.(sent := cl.sent + [r]), Ending(None, true))
  }

  datatype Parsed = Good(m: Content) | Bad(why: Complaint) | Uncaught

  /** `decode` applied to the bytes in the line buffer. */
  function Parse(line: string): Parsed {
    var (o, m) := DecodeInto(CString(line), Content(NONE, []));
    match o
    case Done => Good(m)
    case Invalid(why) => Bad(why)
    case Escapes => Uncaught
  }

  /** What the server sees of a message sent as its own encoding. */
  lemma ParseOfLine(m: Content)
    requires m.kind != NONE && !CarriesQuotedText(m.kind) && AllWords(m.args) && Conforms(m)
    requires |Line(m)| <= MAX_ENCODED_LEN && '\0' !in Line(m)
    ensures Parse(Line(m)) == Good(m)
  {
    CStringOfPlain(Line(m));
    RoundTrip(m, Content(NONE, []));
  }

  function Calculate(cl: Client, r: Result): Option<Client> {
    match r
    case Next(stack) => Some(Respond(cl.(stack := stack), Okay))
    case Refuse(why, stack) => Some(Throw(cl.(stack := stack), OnStack(why)))
    case Crash => None
  }

  function Top(cl: Client): Client {
    if cl.stack == [] then Throw(cl, OnStack(NothingOnTop))
    else
      var top := cl.stack[|cl.stack| - 1];
      if DataFits(top) then Respond(cl, Datum(top))
      else Abort(cl, Ending(Some(Error(BadLine(TooLong))), true))
  }

  predicate DataFits(v: string) {
    |Line(Content(DATA, [v]))| <= MAX_ENCODED_LEN
  }

  function Pop(cl: Client): Client {
    if cl.stack == [] then Throw(cl, OnStack(NothingToPop))
    else Respond(cl.(stack := cl.stack[..|cl.stack| - 1]), Okay)
  }

  /** `handle_set` and `handle_get` up to the lock: find the table, pick the mode. */
  function Approach(cl: Client, registry: map<string, TableId>, name: string, op: TableOp): Client {
    if op.SetOp? && cl.stack == [] then Throw(cl, NoValueOnStack)
    else if name !in registry then Throw(cl, TableNotFound)
    else if cl.inTx then cl.(pc := TxAcquire(op, registry[name]))
    else cl.(pc := AutoWait(op, registry[name]))
  }

  /** `call_response_function`; None when an uncaught exception ends the process. */
  function Dispatch(cl: Client, registry: map<string, TableId>, m: Content): Option<Client> {
    match m.kind
    case CREATE => if |m.args| < 1 then None else Some(cl.(pc := CreateWait(m.args[0])))
    case BEGIN => Some(if cl.inTx then Throw(cl, NestedTransaction) else Respond(cl.(inTx := true), Okay))
    case COMMIT =>
      Some(if !cl.inTx then Throw(cl, NoTransaction)
           else cl.(pc := Releasing(true, cl.locked, None, Ending(Some(Okay), false))))
    case POP => Some(Pop(cl))
    case TOP => Some(Top(cl))
    case ADD => Calculate(cl, Arith(Add, cl.stack))
    case SUB => Calculate(cl, Arith(Sub, cl.stack))
    case MUL => Calculate(cl, Arith(Mul, cl.stack))
    case DIV => Calculate(cl, Arith(Div, cl.stack))
    case BYE => Some(Quit(cl, Okay))
    case PUSH => if |m.args| < 1 then None else Some(Respond(cl.(stack := cl.stack + [m.args[0]]), Okay))
    case SET => if |m.args| < 2 then None else Some(Approach(cl, registry, m.args[0], SetOp(m.args[1])))
    case GET => if |m.args| < 2 then None else Some(Approach(cl, registry, m.args[0], GetOp(m.args[1])))
    case _ => Some(Throw(cl, NotARequest))
  }

  /** One round of the session loop, given what `decode` made of the line. A
      repeated LOGIN succeeds: the code tests a pointer, not the flag. */
  function Serve(cl0: Client, registry: map<string, TableId>, p: Parsed): Option<Client> {
    var cl := cl0.(lines := cl0.lines + 1);
    match p
    case Uncaught => None
    case Bad(why) => Some(Abort(cl, Ending(Some(Error(BadLine(why))), false)))
    case Good(m) =>
      if m.kind == LOGIN then Some(Respond(cl.(loggedIn := true), Okay))
      else if !cl.loggedIn then Some(Quit(cl, Error(NotLoggedIn)))
      else Dispatch(cl, registry, m)
  }

  lemma ServedIsDispatched(cl: Client, registry: map<string, TableId>, m: Content)
    requires cl.loggedIn && m.kind != LOGIN
    ensures Serve(cl, registry, Good(m)) == Dispatch(cl.(lines := cl.lines + 1), registry, m)
  {
  }

  lemma OperatorDispatched(cl: Client, registry: map<string, TableId>, m: Content, op: ArithOp)
    requires m.kind == RequestFor(op)
    ensures Dispatch(cl, registry, m) == Calculate(cl, Arith(op, cl.stack))
  {
    match op
    case Add => AddDispatched(cl, registry, m, Arith(op, cl.stack));
    case Sub => SubDispatched(cl, registry, m, Arith(op, cl.stack));
    case Mul => MulDispatched(cl, registry, m, Arith(op, cl.stack));
    case Div => DivDispatched(cl, registry, m, Arith(op, cl.stack));
  }

  lemma AddDispatched(cl: Client, registry: map<string, TableId>, m: Content, r: Result)
    requires m.kind == ADD && r == Arith(Add, cl.stack)
    ensures Dispatch(cl, registry, m) == Calculate(cl, r)
  {
  }

  lemma SubDispatched(cl: Client, registry: map<string, TableId>, m: Content, r: Result)
    requires m.kind == SUB && r == Arith(Sub, cl.stack)
    ensures Dispatch(cl, registry, m) == Calculate(cl, r)
  {
  }

  lemma MulDispatched(cl: Client, registry: map<string, TableId>, m: Content, r: Result)
    requires m.kind == MUL && r == Arith(Mul, cl.stack)
    ensures Dispatch(cl, registry, m) == Calculate(cl, r)
  {
  }

  lemma DivDispatched(cl: Client, registry: map<string, TableId>, m: Content, r: Result)
    requires m.kind == DIV && r == Arith(Div, cl.stack)
    ensures Dispatch(cl, registry, m) == Calculate(cl, r)
  {
  }

  // ----- what a step does to the shared state -----------------------------

  datatype Edit = PutEntry(key: string, value: string) | CommitAll | RollbackAll

  function Edited(s: Store, e: Edit): Store {
    match e
    case PutEntry(k, v) => Put(s, k, v)
    case CommitAll => Commit(s)
    case RollbackAll => Rollback(s)
  }

  datatype Effect =
    | Nothing
    | Locks(t: TableId)
    | Unlocks(t: TableId)
    | Edits(t: TableId, e: Edit)
    | LocksServer
    | UnlocksServer
    | Inserts(name: string, id: TableId)
    | Crashes

  /** What makes a client move: it connects, its socket delivers a line or ends,
      or the scheduler lets its thread go on. `pick` resolves what the code leaves
      open: the iteration order over a set, the address of a new table. */
  datatype Input = Connect | Request(text: string) | Eof | Go(pick: nat)

  datatype Action = Act(c: ClientId, input: Input)

  /** `set_table_value` takes its value from the top of the stack. */
  function TopOf(stack: seq<string>): string {
    if stack == [] then "" else stack[|stack| - 1]
  }

  function Popped(stack: seq<string>): seq<string> {
    if stack == [] then [] else stack[..|stack| - 1]
  }

  /** A client's thread goes on. `store` and `owner` belong to the table its
      program counter names. */
  function Continue(v: Variant, cl: Client, registry: map<string, TableId>, store: Store, owner: Option<ClientId>, pick: nat): (Client, Effect)
  {
    match cl.pc
    case Idle => (cl, Nothing)
    case Closed => (cl, Nothing)
    case AutoWait(op, t) => (cl.(pc := AutoRun(op, t)), Locks(t))
    case AutoRun(SetOp(k), t) =>
      (cl.(pc := AutoCommit(t), stack := Popped(cl.stack)), Edits(t, PutEntry(k, TopOf(cl.stack))))
    case AutoRun(GetOp(k), t) =>
      if HasKey(store, k) then (cl.(pc := AutoUnlock(t, Okay), stack := cl.stack + [Fetch(store, k).value]), Nothing)
      else if v == AsWritten then (cl.(pc := Stray(t)), Nothing)
      else (cl.(pc := AutoUnlock(t, Failed(KeyNotFound))), Nothing)
    case AutoCommit(t) => (cl.(pc := AutoUnlock(t, Okay)), Edits(t, CommitAll))
    case AutoUnlock(t, r) => (Respond(cl, r), Unlocks(t))
    case TxAcquire(op, t) =>
      if t in cl.locked then (cl.(pc := TxRun(op, t)), Nothing)
      else if owner == None then (cl.(pc := TxRun(op, t), locked := cl.locked + {t}), Locks(t))
      else (Throw(cl, TableBusy), Nothing)
    case TxRun(SetOp(k), t) =>
      (Respond(cl.(stack := Popped(cl.stack)), Okay), Edits(t, PutEntry(k, TopOf(cl.stack))))
    case TxRun(GetOp(k), t) =>
      if HasKey(store, k) then (Respond(cl.(stack := cl.stack + [Fetch(store, k).value]), Okay), Nothing)
      else if v == AsWritten then (cl.(pc := Stray(t)), Nothing)
      else (Throw(cl, KeyNotFound), Nothing)
    case Stray(t) =>
      (if cl.inTx then Throw(cl, KeyNotFound) else cl.(pc := AutoUnlock(t, Failed(KeyNotFound))), Unlocks(t))
    case Releasing(commit, todo, stage, ending) =>
      if stage.Some? then (cl.(pc := Releasing(commit, todo - {stage.value}, None, ending)), Unlocks(stage.value))
      else if todo == {} then (Finish(cl, ending), Nothing)
      else (cl.(pc := Releasing(commit, todo, Some(pick), ending)), Edits(pick, if commit then CommitAll else RollbackAll))
    case CreateWait(n) => (cl.(pc := CreateFind(n)), LocksServer)
    case CreateFind(n) =>
      (cl.(pc := if n in registry then CreateUnlock(true) else CreateInsert(n)), Nothing)
    case CreateInsert(n) => (cl.(pc := CreateUnlock(false), sent := cl.sent + [Okay]), Inserts(n, pick))
    case CreateUnlock(failed) => (if failed then Throw(cl, TableExists) else cl.(pc := Idle), UnlocksServer)
  }

  /** The table a program counter is about; None if it is about none. */
  function Subject(pc: Pc): Option<TableId> {
    match pc
    case AutoWait(_, t) => Some(t)
    case AutoRun(_, t) => Some(t)
    case AutoCommit(t) => Some(t)
    case AutoUnlock(t, _) => Some(t)
    case TxAcquire(_, t) => Some(t)
    case TxRun(_, t) => Some(t)
    case Stray(t) => Some(t)
    case Releasing(_, _, stage, _) => stage
    case _ => None
  }

  function StoreAt(s: State, t: Option<TableId>): Store {
    if t.Some? && t.value in s.tables then s.tables[t.value].store else EMPTY
  }

  function OwnerAt(s: State, t: Option<TableId>): Option<ClientId> {
    if t.Some? && t.value in s.tables then s.tables[t.value].owner else None
  }

  /** A thread inside a blocking lock call that another client has to end. */
  predicate Blocked(s: State, cl: Client) {
    match cl.pc
    case AutoWait(_, t) => OwnerAt(s, Some(t)).Some?
    case CreateWait(_) => s.server.Some?
    case _ => false
  }

  /** The choice an input makes is one the code could make. */
  predicate PickFits(s: State, pc: Pc, pick: nat) {
    match pc
    case CreateInsert(_) => pick !in s.tables
    case Releasing(_, todo, None, _) => todo == {} || (pick in todo && pick in s.tables)
    case _ => Subject(pc).Some? ==> Subject(pc).value in s.tables
  }

  predicate Enabled(s: State, a: Action) {
    && !s.crashed
    && match a.input
       case Connect => a.c !in s.clients
       case Request(_) => a.c in s.clients && s.clients[a.c].pc == Idle
       case Eof => a.c in s.clients && s.clients[a.c].pc == Idle
       case Go(pick) =>
         && a.c in s.clients
         && s.clients[a.c].pc != Idle && s.clients[a.c].pc != Closed
         && !Blocked(s, s.clients[a.c])
         && PickFits(s, s.clients[a.c].pc, pick)
  }

  function Receive(s: State, cl: Client, p: Parsed): (Client, Effect) {
    match Serve(cl, s.registry, p)
    case Some(cl') => (cl', Nothing)
    case None => (cl, Crashes)
  }

  function Resume(v: Variant, s: State, cl: Client, pick: nat): (Client, Effect) {
    Continue(v, cl, s.registry, StoreAt(s, Subject(cl.pc)), OwnerAt(s, Subject(cl.pc)), pick)
  }

  function Move(v: Variant, s: State, a: Action): (Client, Effect)
    requires Enabled(s, a)
  {
    match a.input
    case Connect => (NEW_CLIENT, Nothing)
    case Request(text) => Receive(s, s.clients[a.c], Parse(text))
    case Eof => (Abort(s.clients[a.c], Ending(None, true)), Nothing)
    case Go(pick) => Resume(v, s, s.clients[a.c], pick)
  }

  function Apply(s: State, c: ClientId, cl: Client, e: Effect): State {
    var s1 := s.(clients := s.clients[c := cl]);
    match e
    case Nothing => s1
    case Locks(t) => if t in s.tables then s1.(tables := s.tables[t := s.tables[t].(owner := Some(c))]) else s1
    case Unlocks(t) => if t in s.tables then s1.(tables := s.tables[t := s.tables[t].(owner := None)]) else s1
    case Edits(t, ed) =>
      if t in s.tables then s1.(tables := s.tables[t := s.tables[t].(store := Edited(s.tables[t].store, ed))]) else s1
    case LocksServer => s1.(server := Some(c))
    case UnlocksServer => s1.(server := None)
    case Inserts(n, id) =>
      s1.(registry := s.registry[n := id], tables := s.tables[id := TableRecord(n, None, EMPTY)])
    case Crashes => s1.(crashed := true)
  }

  function Step(v: Variant, s: State, a: Action): State
    requires Enabled(s, a)
  {
    var (cl, e) := Move(v, s, a);
    Apply(s, a.c, cl, e)
  }

  // ----- runs -------------------------------------------------------------

  predicate Legal(v: Variant, s: State, run: seq<Action>)
    decreases |run|, 0
  {
    run == [] ||
    (var n := |run| - 1; Legal(v, s, run[..n]) && Enabled(After(v, s, run[..n]), run[n]))
  }

  /** The state a run leads to. */
  function After(v: Variant, s: State, run: seq<Action>): State
    requires Legal(v, s, run)
    decreases |run|, 1
  {
    if run == [] then s
    else var n := |run| - 1; Step(v, After(v, s, run[..n]), run[n])
  }

  /** A GET finds its table locked by itself, but not its key. */
  predicate Misses(s: State, a: Action) {
    && a.input.Go?
    && a.c in s.clients
    && var pc := s.clients[a.c].pc;
       && (pc.AutoRun? || pc.TxRun?)
       && pc.op.GetOp?
       && !HasKey(StoreAt(s, Subject(pc)), pc.op.key)
  }

  predicate NoMiss(v: Variant, s: State, run: seq<Action>)
    requires Legal(v, s, run)
  {
    run == [] ||
    (var n := |run| - 1; NoMiss(v, s, run[..n]) && !Misses(After(v, s, run[..n]), run[n]))
  }

  /** Runs on which the locks behave: all runs without the stray unlock, and the
      runs of the code as written in which no GET misses. */
  predicate Sound(v: Variant, s: State, run: seq<Action>) {
    Legal(v, s, run) && (v == Line433Dropped || NoMiss(v, s, run))
  }

  lemma {:induction false} SoundPrefix(v: Variant, s: State, run: seq<Action>)
    requires Sound(v, s, run) && run != []
    ensures Sound(v, s, run[..|run| - 1])
    ensures var s1 := After(v, s, run[..|run| - 1]);
            && Enabled(s1, run[|run| - 1])
            && (v == Line433Dropped || !Misses(s1, run[|run| - 1]))
            && After(v, s, run) == Step(v, s1, run[|run| - 1])
  {
  }

  /** Away from a GET that misses, the stray unlock makes no difference. */
  lemma SameStep(s: State, a: Action)
    requires Enabled(s, a) && !Misses(s, a)
    ensures Step(AsWritten, s, a) == Step(Line433Dropped, s, a)
    ensures Move(AsWritten, s, a) == Move(Line433Dropped, s, a)
  {
  }
}
