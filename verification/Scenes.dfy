/** Runs of the code as written, told as scenes: a few clients and one table before an
    unchanging background, and the request lines that brought them where they are. */
module Scenes {
  import opened Alone
  import opened Codec
  import opened Engine
  import opened Increment
  import opened Messages
  import opened Requests
  import opened Runs
  import opened Tables
  import opened Values
  import opened Wrappers

  type Lines = seq<(ClientId, string)>

  datatype Scene = Scene(cast: map<ClientId, Client>, table: TableRecord, asked: Lines)

  function Played(s: State, t: TableId, sc: Scene): State {
    s.(clients := s.clients + sc.cast, tables := s.tables[t := sc.table])
  }

  /** The run leads to the scene, with its requests. */
  ghost predicate Leads(s: State, t: TableId, run: seq<Action>, sc: Scene) {
    && Legal(AsWritten, s, run) && After(AsWritten, s, run) == Played(s, t, sc)
    && RequestsOf(run) == sc.asked
  }

  /** The background: a server that is up, with the table in it. */
  predicate IsSet(s: State, t: TableId) {
    !s.crashed && t in s.tables
  }

  /** A cast member who can be given a line. */
  predicate IsReady(sc: Scene, t: TableId, c: ClientId) {
    c in sc.cast && sc.cast[c].pc == Idle && sc.cast[c].loggedIn && sc.cast[c].locked <= {t}
  }

  function Counted(cl: Client): Client {
    cl.(lines := cl.lines + 1)
  }

  function By(c: ClientId, line: string): Lines {
    [(c, line)]
  }

  /** What a client's lines have made of the scene: of itself and of the table. */
  function Later(sc: Scene, c: ClientId, lines: Lines, cl: Client, tb: TableRecord): Scene {
    Scene(sc.cast[c := cl], tb, sc.asked + lines)
  }

  /** The client takes two turns running. */
  lemma LaterStill(sc: Scene, c: ClientId, l1: Lines, cl1: Client, tb1: TableRecord, l2: Lines, cl2: Client, tb2: TableRecord)
    ensures Later(Later(sc, c, l1, cl1, tb1), c, l2, cl2, tb2) == Later(sc, c, l1 + l2, cl2, tb2)
  {
    assert sc.cast[c := cl1][c := cl2] == sc.cast[c := cl2];
  }

  lemma {:induction false} Curtain(s: State, t: TableId, cast: map<ClientId, Client>) returns (sc: Scene)
    requires IsSet(s, t) && forall c | c in cast :: c in s.clients && cast[c] == s.clients[c]
    ensures sc == Scene(cast, s.tables[t], []) && Leads(s, t, [], sc)
  {
    sc := Scene(cast, s.tables[t], []);
    assert s.clients + cast == s.clients;
    assert s.tables[t := s.tables[t]] == s.tables;
  }

  lemma LaterPlays(s: State, t: TableId, sc: Scene, c: ClientId, lines: Lines, p: Spot)
    ensures With(Played(s, t, sc), c, t, p) == Played(s, t, Later(sc, c, lines, p.cl, p.table))
  {
    assert (s.clients + sc.cast)[c := p.cl] == s.clients + sc.cast[c := p.cl];
    assert s.tables[t := sc.table][t := p.table] == s.tables[t := p.table];
  }

  // ----- steps ------------------------------------------------------------

  /** The next part of the run. */
  lemma {:induction false} Plays(s: State, t: TableId, run: seq<Action>, sc: Scene, more: seq<Action>, next: Scene)
    returns (run': seq<Action>)
    requires Leads(s, t, run, sc)
    requires Legal(AsWritten, Played(s, t, sc), more) && After(AsWritten, Played(s, t, sc), more) == Played(s, t, next)
    requires next.asked == sc.asked + RequestsOf(more)
    ensures Leads(s, t, run', next)
  {
    Append(AsWritten, s, run, more);
    RequestsJoin(run, more);
    run' := run + more;
  }

  /** A line is taken, and nothing more. */
  lemma {:induction false} Asks(s: State, t: TableId, run: seq<Action>, sc: Scene, c: ClientId, m: Content, cl: Client)
    returns (run': seq<Action>, next: Scene)
    requires IsSet(s, t) && Leads(s, t, run, sc) && IsReady(sc, t, c)
    requires Parse(Line(m)) == Good(m) && m.kind != LOGIN && Dispatch(Counted(sc.cast[c]), s.registry, m) == Some(cl)
    ensures next == Later(sc, c, By(c, Line(m)), cl, sc.table) && Leads(s, t, run', next)
  {
    var y, a := Played(s, t, sc), Act(c, Request(Line(m)));
    next := Later(sc, c, By(c, Line(m)), cl, sc.table);
    ServedIsDispatched(sc.cast[c], s.registry, m);
    RequestStep(AsWritten, y, c, Line(m), Good(m), cl);
    LaterPlays(s, t, sc, c, By(c, Line(m)), Spot(cl, sc.table));
    assert y.tables[t := sc.table] == y.tables;
    Single(AsWritten, y, a);
    OneAsks(a);
    run' := Plays(s, t, run, sc, [a], next);
  }

  /** A thread on its way to or from the table takes one step. */
  lemma {:induction false} Steps(s: State, t: TableId, run: seq<Action>, sc: Scene, c: ClientId) returns (run': seq<Action>, next: Scene)
    requires IsSet(s, t) && Leads(s, t, run, sc) && c in sc.cast
    requires IsAccess(sc.cast[c].pc) && Subject(sc.cast[c].pc) == Some(t)
    requires !(sc.cast[c].pc.AutoWait? && sc.table.owner.Some?)
    ensures var p := Next(AsWritten, c, Spot(sc.cast[c], sc.table)); next == Later(sc, c, [], p.cl, p.table)
    ensures Leads(s, t, run', next)
  {
    var y, a, p := Played(s, t, sc), Act(c, Go(0)), Next(AsWritten, c, Spot(sc.cast[c], sc.table));
    StepIsNext(AsWritten, y, c, t, 0);
    LaterPlays(s, t, sc, c, [], p);
    Single(AsWritten, y, a);
    next := Later(sc, c, [], p.cl, p.table);
    SoloAsksNothing([a], c);
    run' := Plays(s, t, run, sc, [a], next);
  }

  /** Autocommit: the lock is taken. */
  lemma {:induction false} TakesLock(s: State, t: TableId, run: seq<Action>, sc: Scene, c: ClientId) returns (run': seq<Action>, next: Scene)
    requires IsSet(s, t) && Leads(s, t, run, sc) && c in sc.cast && sc.cast[c].pc.AutoWait? && sc.cast[c].pc.t == t && sc.table.owner == None
    ensures next == Later(sc, c, [], sc.cast[c].(pc := AutoRun(sc.cast[c].pc.op, t)), sc.table.(owner := Some(c)))
    ensures Leads(s, t, run', next)
  {
    run', next := Steps(s, t, run, sc, c);
  }

  /** Autocommit: the value is proposed. */
  lemma {:induction false} Puts(s: State, t: TableId, run: seq<Action>, sc: Scene, c: ClientId) returns (run': seq<Action>, next: Scene)
    requires IsSet(s, t) && Leads(s, t, run, sc) && c in sc.cast && sc.cast[c].pc.AutoRun? && sc.cast[c].pc.t == t && sc.cast[c].pc.op.SetOp?
    ensures next == Later(sc, c, [], sc.cast[c].(pc := AutoCommit(t), stack := Popped(sc.cast[c].stack)), sc.table.(store := Put(sc.table.store, sc.cast[c].pc.op.key, TopOf(sc.cast[c].stack))))
    ensures Leads(s, t, run', next)
  {
    run', next := Steps(s, t, run, sc, c);
  }

  /** Autocommit: all proposals are committed. */
  lemma {:induction false} CommitsChanges(s: State, t: TableId, run: seq<Action>, sc: Scene, c: ClientId) returns (run': seq<Action>, next: Scene)
    requires IsSet(s, t) && Leads(s, t, run, sc) && c in sc.cast && sc.cast[c].pc == AutoCommit(t)
    ensures next == Later(sc, c, [], sc.cast[c].(pc := AutoUnlock(t, Okay)), sc.table.(store := Commit(sc.table.store)))
    ensures Leads(s, t, run', next)
  {
    run', next := Steps(s, t, run, sc, c);
  }

  /** Autocommit: the key is missing. */
  lemma {:induction false} LooksInVain(s: State, t: TableId, run: seq<Action>, sc: Scene, c: ClientId) returns (run': seq<Action>, next: Scene)
    requires IsSet(s, t) && Leads(s, t, run, sc) && c in sc.cast && sc.cast[c].pc.AutoRun? && sc.cast[c].pc.t == t && sc.cast[c].pc.op.GetOp? && !HasKey(sc.table.store, sc.cast[c].pc.op.key)
    ensures next == Later(sc, c, [], sc.cast[c].(pc := Stray(t)), sc.table)
    ensures Leads(s, t, run', next)
  {
    run', next := Steps(s, t, run, sc, c);
  }

  /** Autocommit: the unlock of line 433. */
  lemma {:induction false} Strays(s: State, t: TableId, run: seq<Action>, sc: Scene, c: ClientId) returns (run': seq<Action>, next: Scene)
    requires IsSet(s, t) && Leads(s, t, run, sc) && c in sc.cast && sc.cast[c].pc == Stray(t) && !sc.cast[c].inTx
    ensures next == Later(sc, c, [], sc.cast[c].(pc := AutoUnlock(t, Failed(KeyNotFound))), sc.table.(owner := None))
    ensures Leads(s, t, run', next)
  {
    run', next := Steps(s, t, run, sc, c);
  }

  /** Autocommit: unlock and reply. */
  lemma {:induction false} GivesBack(s: State, t: TableId, run: seq<Action>, sc: Scene, c: ClientId) returns (run': seq<Action>, next: Scene)
    requires IsSet(s, t) && Leads(s, t, run, sc) && c in sc.cast && sc.cast[c].pc.AutoUnlock? && sc.cast[c].pc.t == t
    ensures next == Later(sc, c, [], Respond(sc.cast[c], sc.cast[c].pc.reply), sc.table.(owner := None))
    ensures Leads(s, t, run', next)
  {
    run', next := Steps(s, t, run, sc, c);
  }

  /** A thread on its way to the table goes on undisturbed. */
  lemma {:induction false} Drives(s: State, t: TableId, run: seq<Action>, sc: Scene, c: ClientId) returns (run': seq<Action>, next: Scene)
    requires IsSet(s, t) && Leads(s, t, run, sc) && c in sc.cast
    requires IsAccess(sc.cast[c].pc) && Subject(sc.cast[c].pc) == Some(t)
    ensures var p := Solo(AsWritten, c, Spot(sc.cast[c], sc.table)); next == Later(sc, c, [], p.cl, p.table)
    ensures Leads(s, t, run', next)
  {
    var y, p := Played(s, t, sc), Solo(AsWritten, c, Spot(sc.cast[c], sc.table));
    DriveIsSolo(AsWritten, y, c, t, 0);
    LaterPlays(s, t, sc, c, [], p);
    var more := DriveIsRun(AsWritten, y, c, 0);
    SoloAsksNothing(more, c);
    next := Later(sc, c, [], p.cl, p.table);
    run' := Plays(s, t, run, sc, more, next);
  }

  /** A COMMIT or abort of a transaction that holds just this table runs to its end. */
  lemma {:induction false} Releases(s: State, t: TableId, run: seq<Action>, sc: Scene, c: ClientId) returns (run': seq<Action>, next: Scene)
    requires IsSet(s, t) && Leads(s, t, run, sc) && c in sc.cast
    requires sc.cast[c].pc.Releasing? && sc.cast[c].pc.stage == None && sc.cast[c].pc.todo == {t}
    ensures var cl := sc.cast[c];
            next == Later(sc, c, [], Finish(cl, cl.pc.ending), ReleasedTable(cl.pc.commit, sc.table))
    ensures Leads(s, t, run', next)
  {
    var y, cl := Played(s, t, sc), sc.cast[c];
    var p := Spot(Finish(cl, cl.pc.ending), ReleasedTable(cl.pc.commit, sc.table));
    var more := ReleasedIsRun(AsWritten, y, c);
    SoloAsksNothing(more, c);
    LaterPlays(s, t, sc, c, [], p);
    assert Released(y, c).tables == y.tables[t := p.table];
    next := Later(sc, c, [], p.cl, p.table);
    run' := Plays(s, t, run, sc, more, next);
  }

  // ----- whole requests ---------------------------------------------------

  lemma {:induction false} Pushes(s: State, t: TableId, run: seq<Action>, sc: Scene, c: ClientId, w: string)
    returns (run': seq<Action>, next: Scene)
    requires IsSet(s, t) && Leads(s, t, run, sc) && IsReady(sc, t, c) && IsValue(w)
    ensures var cl := Counted(sc.cast[c]);
            next == Later(sc, c, By(c, PushLine(w)), Respond(cl.(stack := cl.stack + [w]), Okay), sc.table)
    ensures Leads(s, t, run', next)
  {
    var cl := Counted(sc.cast[c]);
    PushParses(w);
    run', next := Asks(s, t, run, sc, c, Content(PUSH, [w]), Respond(cl.(stack := cl.stack + [w]), Okay));
  }

  function BareLine(k: MessageType): string {
    Line(Content(k, []))
  }

  lemma {:induction false} Begins(s: State, t: TableId, run: seq<Action>, sc: Scene, c: ClientId) returns (run': seq<Action>, next: Scene)
    requires IsSet(s, t) && Leads(s, t, run, sc) && IsReady(sc, t, c) && !sc.cast[c].inTx
    ensures next == Later(sc, c, By(c, BareLine(BEGIN)), Respond(Counted(sc.cast[c]).(inTx := true), Okay), sc.table)
    ensures Leads(s, t, run', next)
  {
    BareParses(BEGIN);
    run', next := Asks(s, t, run, sc, c, Content(BEGIN, []), Respond(Counted(sc.cast[c]).(inTx := true), Okay));
  }

  /** A client whose COMMIT is about to release its tables. */
  function Due(cl: Client): Client {
    cl.(pc := Releasing(true, cl.locked, None, Ending(Some(Okay), false)))
  }

  lemma {:induction false} AsksToCommit(s: State, t: TableId, run: seq<Action>, sc: Scene, c: ClientId) returns (run': seq<Action>, next: Scene)
    requires IsSet(s, t) && Leads(s, t, run, sc) && IsReady(sc, t, c) && sc.cast[c].inTx
    ensures next == Later(sc, c, By(c, BareLine(COMMIT)), Due(Counted(sc.cast[c])), sc.table) && Leads(s, t, run', next)
  {
    BareParses(COMMIT);
    run', next := Asks(s, t, run, sc, c, Content(COMMIT, []), Due(Counted(sc.cast[c])));
  }

  /** A COMMIT of a transaction that holds just this table, with its release. */
  lemma {:induction false} CommitsAll(s: State, t: TableId, run: seq<Action>, sc: Scene, c: ClientId) returns (run': seq<Action>, next: Scene)
    requires IsSet(s, t) && Leads(s, t, run, sc) && IsReady(sc, t, c) && sc.cast[c].inTx && sc.cast[c].locked == {t}
    ensures next == Later(sc, c, By(c, BareLine(COMMIT)), Respond(Counted(sc.cast[c]).(inTx := false, locked := {}), Okay),
                          ReleasedTable(true, sc.table))
    ensures Leads(s, t, run', next)
  {
    var mid;
    run', mid := AsksToCommit(s, t, run, sc, c);
    run', next := Releases(s, t, run', mid, c);
    DueIsDone(Counted(sc.cast[c]));
    LaterStill(sc, c, By(c, BareLine(COMMIT)), mid.cast[c], sc.table, [], next.cast[c], next.table);
    assert By(c, BareLine(COMMIT)) + [] == By(c, BareLine(COMMIT));
  }

  lemma DueIsDone(cl: Client)
    ensures Finish(Due(cl), Due(cl).pc.ending) == Respond(cl.(inTx := false, locked := {}), Okay)
  {
  }

  /** The request line of a GET or SET. */
  function AccessLine(x: Cell, op: TableOp): string {
    Line(Content(if op.GetOp? then GET else SET, [x.table, x.key]))
  }

  /** The table of a cell. */
  predicate IsHere(s: State, t: TableId, x: Cell) {
    IsCell(x) && x.table in s.registry && s.registry[x.table] == t
  }

  function OnItsWay(cl: Client, op: TableOp, t: TableId): Client {
    Counted(cl).(pc := if cl.inTx then TxAcquire(op, t) else AutoWait(op, t))
  }

  /** A GET or SET finds its table; the thread is on its way to the lock. */
  lemma {:induction false} Approaches(s: State, t: TableId, run: seq<Action>, sc: Scene, c: ClientId, x: Cell, op: TableOp)
    returns (run': seq<Action>, next: Scene)
    requires IsSet(s, t) && Leads(s, t, run, sc) && IsReady(sc, t, c) && IsHere(s, t, x) && op.key == x.key
    requires op.SetOp? ==> sc.cast[c].stack != []
    ensures next == Later(sc, c, By(c, AccessLine(x, op)), OnItsWay(sc.cast[c], op, t), sc.table)
    ensures Leads(s, t, run', next)
  {
    var k := if op.GetOp? then GET else SET;
    AccessParses(x, k);
    AccessDispatched(Counted(sc.cast[c]), s.registry, Content(k, [x.table, x.key]), x, op, t);
    run', next := Asks(s, t, run, sc, c, Content(k, [x.table, x.key]), OnItsWay(sc.cast[c], op, t));
  }

  lemma AccessDispatched(cl: Client, registry: map<string, TableId>, m: Content, x: Cell, op: TableOp, t: TableId)
    requires m.kind == (if op.GetOp? then GET else SET) && m.args == [x.table, x.key] && op.key == x.key
    requires x.table in registry && registry[x.table] == t && (op.SetOp? ==> cl.stack != [])
    ensures Dispatch(cl, registry, m) == Some(cl.(pc := if cl.inTx then TxAcquire(op, t) else AutoWait(op, t)))
  {
  }

  /** A GET or SET, undisturbed from its line to its end. */
  lemma {:induction false} Accesses(s: State, t: TableId, run: seq<Action>, sc: Scene, c: ClientId, x: Cell, op: TableOp)
    returns (run': seq<Action>, next: Scene)
    requires IsSet(s, t) && Leads(s, t, run, sc) && IsReady(sc, t, c) && IsHere(s, t, x) && op.key == x.key
    requires op.SetOp? ==> sc.cast[c].stack != []
    ensures var p := Solo(AsWritten, c, Spot(OnItsWay(sc.cast[c], op, t), sc.table));
            next == Later(sc, c, By(c, AccessLine(x, op)), p.cl, p.table)
    ensures Leads(s, t, run', next)
  {
    var mid;
    run', mid := Approaches(s, t, run, sc, c, x, op);
    run', next := Drives(s, t, run', mid, c);
    LaterStill(sc, c, By(c, AccessLine(x, op)), mid.cast[c], sc.table, [], next.cast[c], next.table);
    assert By(c, AccessLine(x, op)) + [] == By(c, AccessLine(x, op));
  }

  /** A SET outside transactions. */
  lemma {:induction false} SetsAlone(s: State, t: TableId, run: seq<Action>, sc: Scene, c: ClientId, x: Cell) returns (run': seq<Action>, next: Scene)
    requires IsSet(s, t) && Leads(s, t, run, sc) && IsReady(sc, t, c) && IsHere(s, t, x)
    requires !sc.cast[c].inTx && sc.table.owner == None && sc.cast[c].stack != []
    ensures var cl := Counted(sc.cast[c]);
            next == Later(sc, c, By(c, AccessLine(x, SetOp(x.key))),
                          Respond(cl.(stack := Popped(cl.stack)), Okay),
                          sc.table.(store := Commit(Put(sc.table.store, x.key, TopOf(cl.stack)))))
    ensures Leads(s, t, run', next)
  {
    SoloAutoSet(AsWritten, c, Spot(OnItsWay(sc.cast[c], SetOp(x.key), t), sc.table), x.key, t);
    run', next := Accesses(s, t, run, sc, c, x, SetOp(x.key));
  }

  /** The table of a transaction that gets it, or has it already. */
  function Gotten(sc: Scene, t: TableId, c: ClientId): TableRecord
    requires c in sc.cast
  {
    if t in sc.cast[c].locked then sc.table else sc.table.(owner := Some(c))
  }

  /** A SET in a transaction. */
  lemma {:induction false} SetsInside(s: State, t: TableId, run: seq<Action>, sc: Scene, c: ClientId, x: Cell) returns (run': seq<Action>, next: Scene)
    requires IsSet(s, t) && Leads(s, t, run, sc) && IsReady(sc, t, c) && IsHere(s, t, x)
    requires sc.cast[c].inTx && (t in sc.cast[c].locked || sc.table.owner == None) && sc.cast[c].stack != []
    ensures var cl := Counted(sc.cast[c]);
            next == Later(sc, c, By(c, AccessLine(x, SetOp(x.key))),
                          Respond(cl.(stack := Popped(cl.stack), locked := {t}), Okay),
                          Gotten(sc, t, c).(store := Put(sc.table.store, x.key, TopOf(cl.stack))))
    ensures Leads(s, t, run', next)
  {
    SoloTxSet(AsWritten, c, Spot(OnItsWay(sc.cast[c], SetOp(x.key), t), sc.table), x.key, t);
    LockedBecomes(sc.cast[c].locked, t);
    run', next := Accesses(s, t, run, sc, c, x, SetOp(x.key));
  }

  lemma LockedBecomes(locked: set<TableId>, t: TableId)
    requires locked <= {t}
    ensures locked + {t} == {t} && (t in locked ==> locked == {t})
  {
  }

  /** A GET in a transaction, of a key that is there. */
  lemma {:induction false} GetsInside(s: State, t: TableId, run: seq<Action>, sc: Scene, c: ClientId, x: Cell) returns (run': seq<Action>, next: Scene)
    requires IsSet(s, t) && Leads(s, t, run, sc) && IsReady(sc, t, c) && IsHere(s, t, x)
    requires sc.cast[c].inTx && (t in sc.cast[c].locked || sc.table.owner == None) && HasKey(sc.table.store, x.key)
    ensures var cl := Counted(sc.cast[c]);
            next == Later(sc, c, By(c, AccessLine(x, GetOp(x.key))),
                          Respond(cl.(stack := cl.stack + [Fetch(sc.table.store, x.key).value], locked := {t}), Okay),
                          Gotten(sc, t, c))
    ensures Leads(s, t, run', next)
  {
    SoloTxHit(AsWritten, c, Spot(OnItsWay(sc.cast[c], GetOp(x.key), t), sc.table), x.key, t);
    LockedBecomes(sc.cast[c].locked, t);
    run', next := Accesses(s, t, run, sc, c, x, GetOp(x.key));
  }

  /** A GET in a transaction, of a key that is missing: the transaction is to be rolled
      back, its table is free. */
  lemma {:induction false} MissesInside(s: State, t: TableId, run: seq<Action>, sc: Scene, c: ClientId, w: Cell) returns (run': seq<Action>, next: Scene)
    requires IsSet(s, t) && Leads(s, t, run, sc) && IsReady(sc, t, c) && IsHere(s, t, w)
    requires sc.cast[c].inTx && (t in sc.cast[c].locked || sc.table.owner == None) && !HasKey(sc.table.store, w.key)
    ensures var cl := Counted(sc.cast[c]);
            next == Later(sc, c, By(c, AccessLine(w, GetOp(w.key))),
                          Throw(cl.(locked := {t}), KeyNotFound), sc.table.(owner := None))
    ensures Leads(s, t, run', next)
  {
    SoloTxMiss(AsWritten, c, Spot(OnItsWay(sc.cast[c], GetOp(w.key), t), sc.table), w.key, t);
    LockedBecomes(sc.cast[c].locked, t);
    run', next := Accesses(s, t, run, sc, c, w, GetOp(w.key));
  }
}
