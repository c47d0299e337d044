/** The unlock inside `get_table_value` (client_connection.cpp, line 433): exactly
    when it breaks ownership, and what can come of it. */
module StrayUnlock {
  import opened Alone
  import opened Engine
  import opened Increment
  import opened Holdings
  import opened Locks
  import opened Messages
  import opened Requests
  import opened Runs
  import opened Codec
  import opened Tables
  import opened Wrappers

  /** The thread of client `c` is about to look a key up under its lock. */
  predicate AboutToGet(s: State, c: ClientId) {
    c in s.clients && (s.clients[c].pc.AutoRun? || s.clients[c].pc.TxRun?) && s.clients[c].pc.op.GetOp?
  }

  /** The state once `get_table_value` has returned or thrown, in the code as written. */
  function AfterGet(s: State, c: ClientId): State
    requires Enabled(s, Act(c, Go(0))) && AboutToGet(s, c)
  {
    var s1 := Step(AsWritten, s, Act(c, Go(0)));
    if Misses(s, Act(c, Go(0))) && Enabled(s1, Act(c, Go(0))) then Step(AsWritten, s1, Act(c, Go(0))) else s1
  }

  lemma HitKeepsOwners(s: State, c: ClientId)
    requires LockInv(s) && Enabled(s, Act(c, Go(0))) && AboutToGet(s, c) && !Misses(s, Act(c, Go(0)))
    ensures OwnersOk(AfterGet(s, c))
  {
    SameStep(s, Act(c, Go(0)));
    StepKeepsLocks(s, Act(c, Go(0)));
  }

  lemma MissFreesTable(s: State, c: ClientId)
    requires LockInv(s) && Enabled(s, Act(c, Go(0))) && AboutToGet(s, c) && Misses(s, Act(c, Go(0)))
    ensures var z, t := AfterGet(s, c), s.clients[c].pc.t;
            c in z.clients && t in Held(z.clients[c]) && t in z.tables && z.tables[t].owner == None
  {
    assert ClientOk(s, s.clients[c]);
    assert s.clients[c].pc.t in Held(s.clients[c]);
    MissFreesHeldTable(s, c);
  }

  lemma MissFreesHeldTable(s: State, c: ClientId)
    requires Enabled(s, Act(c, Go(0))) && AboutToGet(s, c) && Misses(s, Act(c, Go(0)))
    requires ClientOk(s, s.clients[c]) && s.clients[c].pc.t in s.tables
    ensures var z, t := AfterGet(s, c), s.clients[c].pc.t;
            c in z.clients && t in Held(z.clients[c]) && t in z.tables && z.tables[t].owner == None
  {
    var s1 := Step(AsWritten, s, Act(c, Go(0)));
    assert s1 == s.(clients := s.clients[c := s.clients[c].(pc := Stray(s.clients[c].pc.t))]);
  }

  lemma FreeButHeld(z: State, c: ClientId, t: TableId)
    requires c in z.clients && t in Held(z.clients[c]) && t in z.tables && z.tables[t].owner == None
    ensures !OwnersOk(z)
  {
  }

  /** Under the lock invariant, a GET of the code as written leaves every table with
      its rightful owner if and only if its key is there. */
  lemma GetKeepsOwnersExactlyIfKeyExists(s: State, c: ClientId)
    requires LockInv(s) && Enabled(s, Act(c, Go(0))) && AboutToGet(s, c)
    ensures OwnersOk(AfterGet(s, c)) <==>
              HasKey(StoreAt(s, Some(s.clients[c].pc.t)), s.clients[c].pc.op.key)
  {
    if Misses(s, Act(c, Go(0))) {
      MissFreesTable(s, c);
      FreeButHeld(AfterGet(s, c), c, s.clients[c].pc.t);
    } else {
      HitKeepsOwners(s, c);
    }
  }

  // ----- a run that breaks exclusivity ------------------------------------

  predicate Waiting(s: State, c: ClientId) {
    c in s.clients && s.clients[c].pc == Idle && s.clients[c].loggedIn
  }

  function BeginLine(): string {
    Line(Content(BEGIN, []))
  }

  function GetLine(x: Cell): string {
    Line(Content(GET, [x.table, x.key]))
  }

  /** A client whose BEGIN has been answered. */
  function Begun(cl: Client): Client {
    Respond(cl.(lines := cl.lines + 1, inTx := true), Okay)
  }

  lemma BeginServed(cl: Client, registry: map<string, TableId>)
    requires cl.loggedIn && !cl.inTx
    ensures Serve(cl, registry, Good(Content(BEGIN, []))) == Some(Begun(cl))
  {
  }

  lemma BeginStep(s: State, c: ClientId)
    requires !s.crashed && Waiting(s, c) && !s.clients[c].inTx
    ensures Enabled(s, Act(c, Request(BeginLine())))
    ensures Step(AsWritten, s, Act(c, Request(BeginLine()))) == s.(clients := s.clients[c := Begun(s.clients[c])])
  {
    BareParses(BEGIN);
    BeginServed(s.clients[c], s.registry);
    RequestStep(AsWritten, s, c, BeginLine(), Good(Content(BEGIN, [])), Begun(s.clients[c]));
  }

  /** A client whose GET has found its table. */
  function Approaching(cl: Client, k: string, t: TableId): Client {
    cl.(lines := cl.lines + 1, pc := if cl.inTx then TxAcquire(GetOp(k), t) else AutoWait(GetOp(k), t))
  }

  lemma GetStep(s: State, c: ClientId, x: Cell)
    requires !s.crashed && Waiting(s, c) && IsCell(x) && x.table in s.registry
    ensures Enabled(s, Act(c, Request(GetLine(x))))
    ensures Step(AsWritten, s, Act(c, Request(GetLine(x)))) ==
              s.(clients := s.clients[c := Approaching(s.clients[c], x.key, s.registry[x.table])])
  {
    AccessParses(x, GET);
    RequestStep(AsWritten, s, c, GetLine(x), Good(Content(GET, [x.table, x.key])), Approaching(s.clients[c], x.key, s.registry[x.table]));
  }

  /** In a transaction, a GET that finds its table free takes it. */
  lemma TxTakesTable(s: State, c: ClientId, k: string, t: TableId)
    requires !s.crashed && c in s.clients && s.clients[c].pc == TxAcquire(GetOp(k), t) && s.clients[c].locked == {}
    requires t in s.tables && s.tables[t].owner == None
    ensures Enabled(s, Act(c, Go(0)))
    ensures var z := Step(AsWritten, s, Act(c, Go(0)));
            && !z.crashed && z.registry == s.registry
            && c in z.clients && z.clients == s.clients[c := z.clients[c]]
            && z.tables == s.tables[t := s.tables[t].(owner := Some(c))]
            && Held(z.clients[c]) == {t}
  {
  }

  function Mid(cl: Client, pc: Pc): Client {
    cl.(pc := pc)
  }

  lemma AutoLocks(s: State, c: ClientId, k: string, t: TableId)
    requires !s.crashed && c in s.clients && s.clients[c].pc == AutoWait(GetOp(k), t)
    requires t in s.tables && s.tables[t].owner == None
    ensures Enabled(s, Act(c, Go(0)))
    ensures Step(AsWritten, s, Act(c, Go(0))) ==
              s.(clients := s.clients[c := Mid(s.clients[c], AutoRun(GetOp(k), t))],
                 tables := s.tables[t := s.tables[t].(owner := Some(c))])
  {
  }

  lemma AutoLooks(s: State, c: ClientId, k: string, t: TableId)
    requires !s.crashed && c in s.clients && s.clients[c].pc == AutoRun(GetOp(k), t)
    requires t in s.tables && !HasKey(s.tables[t].store, k)
    ensures Enabled(s, Act(c, Go(0)))
    ensures Step(AsWritten, s, Act(c, Go(0))) == s.(clients := s.clients[c := Mid(s.clients[c], Stray(t))])
  {
  }

  lemma AutoStrays(s: State, c: ClientId, t: TableId)
    requires !s.crashed && c in s.clients && s.clients[c].pc == Stray(t) && t in s.tables && !s.clients[c].inTx
    ensures Enabled(s, Act(c, Go(0)))
    ensures Step(AsWritten, s, Act(c, Go(0))) ==
              s.(clients := s.clients[c := Mid(s.clients[c], AutoUnlock(t, Failed(KeyNotFound)))],
                 tables := s.tables[t := s.tables[t].(owner := None)])
  {
  }

  /** The second unlock of the missed GET frees the table, whoever holds it now. */
  lemma SecondUnlock(s: State, c: ClientId, t: TableId, r: Reply)
    requires !s.crashed && c in s.clients && s.clients[c].pc == AutoUnlock(t, r) && t in s.tables
    ensures var g := Act(c, Go(0));
            && Enabled(s, g)
            && var z := Step(AsWritten, s, g);
               && !z.crashed && z.registry == s.registry
               && z.clients == s.clients[c := z.clients[c]]
               && z.tables == s.tables[t := s.tables[t].(owner := None)]
  {
  }

  /** From any server at rest with three idle logged-in sessions and a table without
      the key, the code as written has a run after which two transactions hold the
      same table at once: the first session's GET misses and unlocks, the second
      session locks the table, the first unlocks again, the third locks it too. */
  lemma {:induction false} ExclusivityCanBreak(s: State, x: Cell, a: ClientId, b: ClientId, c: ClientId) returns (run: seq<Action>)
    requires AtRest(s) && !s.crashed && a != b && a != c && b != c
    requires Waiting(s, a) && Waiting(s, b) && Waiting(s, c)
    requires IsCell(x) && x.table in s.registry && !HasKey(s.tables[s.registry[x.table]].store, x.key)
    ensures Legal(AsWritten, s, run)
    ensures var z, t := After(AsWritten, s, run), s.registry[x.table];
            && b in z.clients && c in z.clients
            && t in Held(z.clients[b]) && t in Held(z.clients[c])
            && !HoldingsAreDisjoint(z)
  {
    run := TransactionsBegin(s, a, b, c);
    var s1 := After(AsWritten, s, run);
    run := FirstMisses(s, run, x, a);
    var s2 := After(AsWritten, s, run);
    run := TableIsTaken(s, run, x, b);
    var s3 := After(AsWritten, s, run);
    SecondUnlock(s3, a, s.registry[x.table], Failed(KeyNotFound));
    Extend(AsWritten, s, run, Act(a, Go(0)));
    run := run + [Act(a, Go(0))];
    var s4 := After(AsWritten, s, run);
    run := TableIsTaken(s, run, x, c);
    var z, t := After(AsWritten, s, run), s.registry[x.table];
    assert z.clients[b] == s3.clients[b] && z.clients[c] == z.clients[c];
    assert t in Held(z.clients[b]) * Held(z.clients[c]);
  }

  lemma {:induction false} TransactionsBegin(s: State, a: ClientId, b: ClientId, c: ClientId) returns (run: seq<Action>)
    requires AtRest(s) && !s.crashed && a != b && a != c && b != c
    requires Waiting(s, a) && Waiting(s, b) && Waiting(s, c)
    ensures Legal(AsWritten, s, run)
    ensures var z := After(AsWritten, s, run);
            && !z.crashed && z.tables == s.tables && z.registry == s.registry
            && Waiting(z, a) && !z.clients[a].inTx
            && Waiting(z, b) && z.clients[b].inTx && z.clients[b].locked == {}
            && Waiting(z, c) && z.clients[c].inTx && z.clients[c].locked == {}
  {
    BeginStep(s, b);
    BeginStep(Step(AsWritten, s, Act(b, Request(BeginLine()))), c);
    run := [] + [Act(b, Request(BeginLine())), Act(c, Request(BeginLine()))];
    ExtendTwice(AsWritten, s, [], Act(b, Request(BeginLine())), Act(c, Request(BeginLine())));
  }

  lemma {:induction false} FirstMisses(s: State, run: seq<Action>, x: Cell, a: ClientId) returns (run': seq<Action>)
    requires Legal(AsWritten, s, run)
    requires var y := After(AsWritten, s, run);
             && !y.crashed && Waiting(y, a) && !y.clients[a].inTx
             && IsCell(x) && x.table in y.registry && y.registry[x.table] in y.tables
             && y.tables[y.registry[x.table]].owner == None && !HasKey(y.tables[y.registry[x.table]].store, x.key)
    ensures Legal(AsWritten, s, run')
    ensures var y, z := After(AsWritten, s, run), After(AsWritten, s, run');
            && !z.crashed && z.registry == y.registry && z.tables == y.tables
            && a in z.clients && z.clients == y.clients[a := z.clients[a]]
            && z.clients[a].pc == AutoUnlock(y.registry[x.table], Failed(KeyNotFound))
  {
    var y := After(AsWritten, s, run);
    var q, g := Act(a, Request(GetLine(x))), Act(a, Go(0));
    GetStep(y, a, x);
    MissSteps(y, Step(AsWritten, y, q), a, x.key, y.registry[x.table]);
    ExtendTwice(AsWritten, s, run, q, g);
    ExtendTwice(AsWritten, s, run + [q, g], g, g);
    run' := run + [q, g] + [g, g];
  }

  /** Lock, look in vain, unlock for the first time. */
  lemma MissSteps(y: State, y1: State, a: ClientId, k: string, t: TableId)
    requires a in y.clients && y1 == y.(clients := y.clients[a := Approaching(y.clients[a], k, t)])
    requires !y.crashed && !y.clients[a].inTx && t in y.tables && y.tables[t].owner == None && !HasKey(y.tables[t].store, k)
    ensures Enabled(y1, Act(a, Go(0)))
    ensures var y2 := Step(AsWritten, y1, Act(a, Go(0))); Enabled(y2, Act(a, Go(0)))
    ensures var y2 := Step(AsWritten, y1, Act(a, Go(0)));
            var y3 := Step(AsWritten, y2, Act(a, Go(0))); Enabled(y3, Act(a, Go(0)))
    ensures var y2 := Step(AsWritten, y1, Act(a, Go(0)));
            var y3 := Step(AsWritten, y2, Act(a, Go(0)));
            var z := Step(AsWritten, y3, Act(a, Go(0)));
            && !z.crashed && z.registry == y.registry && z.tables == y.tables
            && a in z.clients && z.clients == y.clients[a := z.clients[a]]
            && z.clients[a].pc == AutoUnlock(t, Failed(KeyNotFound))
  {
    AutoLocks(y1, a, k, t);
    var y2 := Step(AsWritten, y1, Act(a, Go(0)));
    AutoLooks(y2, a, k, t);
    var y3 := Step(AsWritten, y2, Act(a, Go(0)));
    AutoStrays(y3, a, t);
    var z := Step(AsWritten, y3, Act(a, Go(0)));
    assert z.tables == y.tables;
  }

  lemma {:induction false} TableIsTaken(s: State, run: seq<Action>, x: Cell, c: ClientId) returns (run': seq<Action>)
    requires Legal(AsWritten, s, run)
    requires var y := After(AsWritten, s, run);
             && !y.crashed && Waiting(y, c) && y.clients[c].inTx && y.clients[c].locked == {}
             && IsCell(x) && x.table in y.registry && y.registry[x.table] in y.tables
             && y.tables[y.registry[x.table]].owner == None
    ensures Legal(AsWritten, s, run')
    ensures var y, z := After(AsWritten, s, run), After(AsWritten, s, run');
            var t := y.registry[x.table];
            && !z.crashed && z.registry == y.registry
            && c in z.clients && z.clients == y.clients[c := z.clients[c]]
            && z.tables == y.tables[t := y.tables[t].(owner := Some(c))]
            && Held(z.clients[c]) == {t}
  {
    var y := After(AsWritten, s, run);
    var q, g := Act(c, Request(GetLine(x))), Act(c, Go(0));
    GetStep(y, c, x);
    TxTakesTable(Step(AsWritten, y, q), c, x.key, y.registry[x.table]);
    ExtendTwice(AsWritten, s, run, q, g);
    run' := run + [q, g];
  }

  // ----- from the empty server --------------------------------------------

  function CreateLine(name: string): string {
    Line(Content(CREATE, [name]))
  }

  /** A CREATE of a new name, alone. */
  lemma {:induction false} TableIsCreated(s: State, run: seq<Action>, c: ClientId, name: string, id: TableId) returns (run': seq<Action>)
    requires Legal(AsWritten, s, run) && IsIdentifier(name) && |CreateLine(name)| <= MAX_ENCODED_LEN
    requires var y := After(AsWritten, s, run);
             !y.crashed && Waiting(y, c) && name !in y.registry && id !in y.tables && y.server == None
    ensures Legal(AsWritten, s, run')
    ensures var y, z := After(AsWritten, s, run), After(AsWritten, s, run');
            z == y.(clients := y.clients[c := AfterCreate(y.clients[c])], registry := y.registry[name := id],
                    tables := y.tables[id := TableRecord(name, None, EMPTY)])
    ensures RequestsOf(run') == RequestsOf(run) + [(c, CreateLine(name))]
  {
    var y := After(AsWritten, s, run);
    var more := CreateAlone(y, c, name, id);
    Append(AsWritten, s, run, more);
    RequestsJoin(run, more);
    run' := run + more;
  }

  lemma {:induction false} CreateAlone(y: State, c: ClientId, name: string, id: TableId) returns (run: seq<Action>)
    requires IsIdentifier(name) && |CreateLine(name)| <= MAX_ENCODED_LEN
    requires !y.crashed && Waiting(y, c) && name !in y.registry && id !in y.tables && y.server == None
    ensures Legal(AsWritten, y, run)
    ensures After(AsWritten, y, run) ==
              y.(clients := y.clients[c := AfterCreate(y.clients[c])], registry := y.registry[name := id],
                 tables := y.tables[id := TableRecord(name, None, EMPTY)])
    ensures RequestsOf(run) == [(c, CreateLine(name))]
  {
    var line := Act(c, Request(CreateLine(name)));
    var y1 := y.(clients := y.clients[c := y.clients[c].(lines := y.clients[c].lines + 1, pc := CreateWait(name))]);
    CreateAsked(y, c, name);
    DriveCreateNew(AsWritten, y1, c, name, id);
    assert y1.clients[c := AfterCreate(y.clients[c])] == y.clients[c := AfterCreate(y.clients[c])];
    var more := DriveIsRun(AsWritten, y1, c, id);
    Prepend(AsWritten, y, line, more);
    OneAsks(line);
    SoloAsksNothing(more, c);
    RequestsJoin([line], more);
    run := [line] + more;
  }

  lemma CreateAsked(y: State, c: ClientId, name: string)
    requires IsIdentifier(name) && |CreateLine(name)| <= MAX_ENCODED_LEN && !y.crashed && Waiting(y, c)
    ensures var line := Act(c, Request(CreateLine(name)));
            && Enabled(y, line)
            && Step(AsWritten, y, line) ==
                 y.(clients := y.clients[c := y.clients[c].(lines := y.clients[c].lines + 1, pc := CreateWait(name))])
  {
    var cl, m := y.clients[c], Content(CREATE, [name]);
    NameParses(CREATE, name);
    CreateServed(cl, y.registry, m, name);
    RequestStep(AsWritten, y, c, CreateLine(name), Good(m), cl.(lines := cl.lines + 1, pc := CreateWait(name)));
  }

  lemma CreateServed(cl: Client, registry: map<string, TableId>, m: Content, name: string)
    requires cl.loggedIn && m.kind == CREATE && m.args == [name]
    ensures Serve(cl, registry, Good(m)) == Some(cl.(lines := cl.lines + 1, pc := CreateWait(name)))
  {
    ServedIsDispatched(cl, registry, m);
  }

  /** A client whose CREATE has been answered. */
  function AfterCreate(cl: Client): Client {
    Respond(cl.(lines := cl.lines + 1), Okay)
  }

  /** Three clients arrive and one creates a table: the server is where
      `ExclusivityCanBreak` starts. */
  lemma {:induction false} StartIsReachable(x: Cell, a: ClientId, b: ClientId, c: ClientId) returns (run: seq<Action>)
    requires a != b && a != c && b != c && IsCell(x) && |CreateLine(x.table)| <= MAX_ENCODED_LEN
    ensures Legal(AsWritten, EMPTY_SERVER, run)
    ensures var s := After(AsWritten, EMPTY_SERVER, run);
            && AtRest(s) && !s.crashed && Waiting(s, a) && Waiting(s, b) && Waiting(s, c)
            && x.table in s.registry && !HasKey(s.tables[s.registry[x.table]].store, x.key)
  {
    OneArgumentLine(LOGIN, "u");
    run := ThreeArrive(a, b, c, "u");
    run := TableIsCreated(EMPTY_SERVER, run, a, x.table, 0);
  }

  lemma {:induction false} ThreeArrive(a: ClientId, b: ClientId, c: ClientId, user: string) returns (run: seq<Action>)
    requires a != b && a != c && b != c && IsIdentifier(user) && |LoginLine(user)| <= MAX_ENCODED_LEN
    ensures Legal(AsWritten, EMPTY_SERVER, run)
    ensures After(AsWritten, EMPTY_SERVER, run) ==
              EMPTY_SERVER.(clients := map[a := LOGGED_IN, b := LOGGED_IN, c := LOGGED_IN])
    ensures RequestsOf(run) == [(a, LoginLine(user)), (b, LoginLine(user)), (c, LoginLine(user))]
  {
    run := Arrives(AsWritten, EMPTY_SERVER, [], a, user);
    run := Arrives(AsWritten, EMPTY_SERVER, run, b, user);
    run := Arrives(AsWritten, EMPTY_SERVER, run, c, user);
  }

  /** So the code as written, started from nothing, can let two transactions hold one
      table at once. */
  lemma {:induction false} ExclusivityBreaksFromEmpty(x: Cell, a: ClientId, b: ClientId, c: ClientId) returns (run: seq<Action>)
    requires a != b && a != c && b != c && IsCell(x) && |CreateLine(x.table)| <= MAX_ENCODED_LEN
    ensures Legal(AsWritten, EMPTY_SERVER, run) && !HoldingsAreDisjoint(After(AsWritten, EMPTY_SERVER, run))
  {
    run := StartIsReachable(x, a, b, c);
    var more := ExclusivityCanBreak(After(AsWritten, EMPTY_SERVER, run), x, a, b, c);
    Append(AsWritten, EMPTY_SERVER, run, more);
    run := run + more;
  }
}
