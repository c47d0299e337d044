/** Concurrent increments: any number of `incr_value -t` clients on one key. */
module Increment {
  import opened Codec
  import opened Deadlock
  import opened Digits
  import opened Engine
  import opened History
  import opened Holdings
  import opened Locks
  import opened Messages
  import opened Requests
  import opened Serial
  import opened SerialSteps
  import opened Sessions
  import opened StackMachine
  import opened Tables
  import opened Text
  import opened Wrappers

  /** The entry that is incremented. */
  datatype Cell = Cell(table: string, key: string)

  /** Names the server accepts in a GET or SET. */
  predicate IsCell(x: Cell) {
    && IsIdentifier(x.table) && IsIdentifier(x.key)
    && |Line(Content(GET, [x.table, x.key]))| <= MAX_ENCODED_LEN
  }

  /** The requests of `incr_value -t` after its LOGIN. */
  function Script(x: Cell): seq<Content> {
    [Content(BEGIN, []), Content(GET, [x.table, x.key]), Content(PUSH, ["1"]), Content(ADD, []),
     Content(SET, [x.table, x.key]), Content(COMMIT, []), Content(BYE, [])]
  }

  predicate AllOkay(rs: seq<Reply>) {
    forall i | 0 <= i < |rs| :: rs[i] == Okay
  }

  /** What the clients may send. Those in `who` run the program: a first line with
      any user name, then the script, one request after the other, and none after a
      reply that is not OK. All others send what they like, except SETs of the cell.
      Any of them may hang up at any time. */
  predicate Obeys(x: Cell, who: set<ClientId>, s: State, a: Action) {
    a.input.Request? && a.c in s.clients ==>
      if a.c in who then
        var cl := s.clients[a.c];
        AllOkay(cl.sent) && cl.lines < 8 && (cl.lines > 0 ==> a.input.text == Line(Script(x)[cl.lines - 1]))
      else
        LeavesAlone(x, Parse(a.input.text))
  }

  predicate LeavesAlone(x: Cell, p: Parsed) {
    !(p.Good? && p.m.kind == SET && |p.m.args| >= 2 && p.m.args[0] == x.table && p.m.args[1] == x.key)
  }

  predicate Obedient(x: Cell, who: set<ClientId>, v: Variant, s: State, run: seq<Action>)
    requires Legal(v, s, run)
  {
    run == [] ||
    (var n := |run| - 1; Obedient(x, who, v, s, run[..n]) && Obeys(x, who, After(v, s, run[..n]), run[n]))
  }

  /** COMMITs of the increment program that have been processed. */
  function Commits(who: set<ClientId>, log: seq<Unit>): nat {
    if log == [] then 0
    else
      var n := |log| - 1;
      Commits(who, log[..n]) + if log[n].Txn? && log[n].committed && log[n].client in who then 1 else 0
  }

  // ----- the serial side --------------------------------------------------

  /** A number one higher, if there is one. */
  predicate CanIncrement(v: string) {
    Stoi(v).Value? && IsInt(Stoi(v).n + 1)
  }

  function Incremented(v: string): string
    requires CanIncrement(v)
  {
    ToString(Stoi(v).n + 1)
  }

  predicate HasRead(x: Cell, ops: seq<Op>) {
    |ops| >= 1 && ops[0].Read? && ops[0].table == x.table && ops[0].key == x.key && ops[0].result.Some?
  }

  function ReadValue(x: Cell, ops: seq<Op>): string
    requires HasRead(x, ops)
  {
    ops[0].result.value
  }

  /** Read the cell, then write the next number to it, and nothing else. */
  predicate IsIncrement(x: Cell, ops: seq<Op>) {
    && |ops| == 2 && HasRead(x, ops) && CanIncrement(ReadValue(x, ops))
    && ops[1] == Write(x.table, x.key, Incremented(ReadValue(x, ops)))
  }

  predicate WritesCell(x: Cell, op: Op) {
    op.Write? && op.table == x.table && op.key == x.key
  }

  predicate Avoids(x: Cell, ops: seq<Op>) {
    forall i | 0 <= i < |ops| :: !WritesCell(x, ops[i])
  }

  predicate UnitOk(x: Cell, who: set<ClientId>, u: Unit) {
    match u
    case Txn(c, ops, committed) => committed ==> if c in who then IsIncrement(x, ops) else Avoids(x, ops)
    case One(_, op) => !WritesCell(x, op)
    case Create(_, _, _) => true
  }

  predicate LogOk(x: Cell, who: set<ClientId>, log: seq<Unit>) {
    forall i | 0 <= i < |log| :: UnitOk(x, who, log[i])
  }

  /** The cell exists and denotes `n`. */
  predicate Holds(x: Cell, db: Db, n: int) {
    x.table in db && x.key in db[x.table] && Stoi(db[x.table][x.key]) == Value(n)
  }

  lemma {:induction false} OverlayAvoids(x: Cell, ops: seq<Op>)
    requires Avoids(x, ops)
    ensures x.key !in Overlay(ops, x.table)
  {
    if ops != [] {
      OverlayAvoids(x, ops[..|ops| - 1]);
    }
  }

  lemma MergeAvoids(x: Cell, db: Db, ops: seq<Op>, n: int)
    requires Avoids(x, ops) && Holds(x, db, n)
    ensures Holds(x, Merge(db, ops), n)
  {
    OverlayAvoids(x, ops);
  }

  lemma OverlayOfIncrement(x: Cell, ops: seq<Op>)
    requires IsIncrement(x, ops)
    ensures Overlay(ops, x.table) == map[x.key := ops[1].value]
    ensures Overlay(ops[..0], x.table) == map[]
  {
    assert ops[..1] == [ops[0]];
    assert ops[..1][..0] == [];
    assert Overlay(ops[..1], x.table) == map[];
  }

  /** An increment that agrees with the database raises the cell by one. */
  lemma IncrementRaises(x: Cell, db: Db, ops: seq<Op>, n: int)
    requires IsIncrement(x, ops) && OpsAgree(db, ops) && Holds(x, db, n)
    ensures Holds(x, Merge(db, ops), n + 1)
  {
    OverlayOfIncrement(x, ops);
    assert ops[..1][..0] == ops[..0];
    assert OpsAgree(db, ops[..1]);
    assert OpAgrees(db, ops[..0], ops[0]);
    assert ReadValue(x, ops) == db[x.table][x.key];
    StoiOfToString(n + 1);
  }

  lemma UnitCounts(x: Cell, who: set<ClientId>, db: Db, u: Unit, n: int)
    requires UnitOk(x, who, u) && UnitAgrees(db, u) && Holds(x, db, n)
    ensures Holds(x, UnitEffect(db, u), n + if u.Txn? && u.committed && u.client in who then 1 else 0)
  {
    match u
    case Txn(c, ops, committed) =>
      if committed {
        if c in who {
          IncrementRaises(x, db, ops, n);
        } else {
          MergeAvoids(x, db, ops, n);
        }
      }
    case One(_, op) => MergeAvoids(x, db, [op], n);
    case Create(_, _, _) =>
  }

  /** In a serial history, the cell counts the committed increments. */
  lemma {:induction false} ReplayCounts(x: Cell, who: set<ClientId>, db: Db, log: seq<Unit>, n: int)
    requires LogOk(x, who, log) && ReplayAgrees(db, log) && Holds(x, db, n)
    ensures Holds(x, Replay(db, log), n + Commits(who, log))
  {
    if log != [] {
      var k := |log| - 1;
      LogOkParts(x, who, log);
      ReplayCounts(x, who, db, log[..k], n);
      ReplayCountsLast(x, who, db, log, n);
    }
  }

  lemma LogOkParts(x: Cell, who: set<ClientId>, log: seq<Unit>)
    requires LogOk(x, who, log) && log != []
    ensures LogOk(x, who, log[..|log| - 1]) && UnitOk(x, who, log[|log| - 1])
  {
  }

  lemma {:induction false} ReplayCountsLast(x: Cell, who: set<ClientId>, db: Db, log: seq<Unit>, n: int)
    requires log != [] && UnitOk(x, who, log[|log| - 1]) && ReplayAgrees(db, log)
    requires Holds(x, Replay(db, log[..|log| - 1]), n + Commits(who, log[..|log| - 1]))
    ensures Holds(x, Replay(db, log), n + Commits(who, log))
  {
    var front, u := log[..|log| - 1], log[|log| - 1];
    UnitCounts(x, who, Replay(db, front), u, n + Commits(who, front));
    assert Replay(db, log) == UnitEffect(Replay(db, front), u);
  }

  // ----- the program ------------------------------------------------------

  function OpsOf(h: Hist, c: ClientId): seq<Op> {
    if c in h.open then h.open[c] else []
  }

  /** Between two requests, after `n` lines all answered OK. */
  predicate IdleAt(x: Cell, n: nat, cl: Client, ops: seq<Op>) {
    && (n >= 1 <==> cl.loggedIn)
    && (cl.inTx <==> 2 <= n <= 6)
    && match n
       case 0 => cl.stack == []
       case 1 => cl.stack == []
       case 2 => cl.stack == [] && ops == []
       case 3 => |ops| == 1 && HasRead(x, ops) && cl.stack == [ReadValue(x, ops)]
       case 4 => |ops| == 1 && HasRead(x, ops) && cl.stack == [ReadValue(x, ops), "1"]
       case 5 => |ops| == 1 && HasRead(x, ops) && CanIncrement(ReadValue(x, ops)) && cl.stack == [Incremented(ReadValue(x, ops))]
       case 6 => IsIncrement(x, ops) && cl.stack == []
       case 7 => cl.stack == []
       case _ => false
  }

  /** On its way to the table: as before the request, which is the `n`th line. */
  predicate Accessing(x: Cell, cl: Client, ops: seq<Op>, op: TableOp) {
    || (op == GetOp(x.key) && cl.lines == 3 && IdleAt(x, 2, cl, ops))
    || (op == SetOp(x.key) && cl.lines == 6 && IdleAt(x, 5, cl, ops))
  }

  predicate IsTable(x: Cell, s: State, t: TableId) {
    t in s.tables && s.tables[t].name == x.table
  }

  /** Where a client running the program can be. */
  predicate OnScript(x: Cell, s: State, cl: Client, ops: seq<Op>) {
    if !AllOkay(cl.sent) then !cl.inTx && (cl.pc == Idle || cl.pc == Closed)
    else
      match cl.pc
      case Closed => true
      case Idle => IdleAt(x, cl.lines, cl, ops)
      case TxAcquire(op, t) => IsTable(x, s, t) && Accessing(x, cl, ops, op)
      case TxRun(op, t) => IsTable(x, s, t) && Accessing(x, cl, ops, op)
      case Releasing(commit, _, _, ending) =>
        if commit then cl.loggedIn && cl.lines == 7 && cl.stack == [] && ending == Ending(Some(Okay), false)
        else ending.reply != Some(Okay) && (ending.reply == None ==> ending.close)
      case _ => false
  }

  /** Where any other client can be: never on its way to write the cell. */
  predicate OffCell(x: Cell, s: State, cl: Client, ops: seq<Op>) {
    && Avoids(x, ops)
    && ((cl.pc.AutoWait? || cl.pc.AutoRun? || cl.pc.TxAcquire? || cl.pc.TxRun?) ==>
          cl.pc.t in s.tables && !(cl.pc.op == SetOp(x.key) && s.tables[cl.pc.t].name == x.table))
  }

  predicate InPlace(x: Cell, who: set<ClientId>, s: State, c: ClientId, cl: Client, ops: seq<Op>) {
    if c in who then OnScript(x, s, cl, ops) else OffCell(x, s, cl, ops)
  }

  predicate AllInPlace(x: Cell, who: set<ClientId>, s: State, h: Hist) {
    forall c | c in s.clients :: InPlace(x, who, s, c, s.clients[c], OpsOf(h, c))
  }

  // ----- requests of the program ------------------------------------------

  lemma AccessParses(x: Cell, k: MessageType)
    requires IsCell(x) && (k == GET || k == SET)
    ensures Parse(Line(Content(k, [x.table, x.key]))) == Good(Content(k, [x.table, x.key]))
  {
    IdentifierIsPlain(x.table);
    IdentifierIsPlain(x.key);
    var m := Content(k, [x.table, x.key]);
    assert m.args[1..] == [x.key] && [x.key][1..] == [];
    assert Spread([x.key]) == " " + x.key;
    assert Spread(m.args) == " " + x.table + (" " + x.key);
    assert Spread(Content(GET, [x.table, x.key]).args) == Spread(m.args);
    ParseOfLine(m);
  }

  /** The server understands every line of the script. */
  lemma ScriptParses(x: Cell, i: nat)
    requires IsCell(x) && i < 7
    ensures Parse(Line(Script(x)[i])) == Good(Script(x)[i])
  {
    ScriptedParses(x, Script(x)[i]);
  }

  lemma ScriptedParses(x: Cell, m: Content)
    requires IsCell(x)
    requires || m == Content(GET, [x.table, x.key]) || m == Content(SET, [x.table, x.key]) || m == Content(PUSH, ["1"])
             || m == Content(BEGIN, []) || m == Content(ADD, []) || m == Content(COMMIT, []) || m == Content(BYE, [])
    ensures Parse(Line(m)) == Good(m)
  {
    if m.kind == GET || m.kind == SET {
      AccessParses(x, m.kind);
    } else if m.kind == PUSH {
      PushParses("1");
    } else {
      BareParses(m.kind);
    }
  }

  /** What a request of the program leads to: still on script, and if the
      transaction is over by it, then by the COMMIT of an increment or not at all. */
  predicate GoesOn(x: Cell, s: State, cl': Client, ops: seq<Op>) {
    && OnScript(x, s, cl', ops)
    && (cl'.pc.Releasing? && cl'.pc.commit ==> IsIncrement(x, ops))
  }

  /** Whatever the first line is, it logs the client in or ends the program. */
  lemma FirstRequest(x: Cell, s: State, cl: Client, p: Parsed)
    requires cl.pc == Idle && cl.lines == 0 && IdleAt(x, 0, cl, []) && AllOkay(cl.sent)
    requires cl.locked == {}
    ensures Serve(cl, s.registry, p).Some? ==>
              GoesOn(x, s, Serve(cl, s.registry, p).value, []) && !IsOpen(Serve(cl, s.registry, p).value)
  {
    match p
    case Uncaught =>
    case Bad(why) =>
      EndsUnhappily(x, s, cl, cl.(lines := 1, sent := cl.sent + [Error(BadLine(why))]));
    case Good(m) =>
      if m.kind == LOGIN {
        assert Serve(cl, s.registry, p) == Some(Respond(cl.(lines := 1, loggedIn := true), Okay));
      } else {
        EndsUnhappily(x, s, cl, cl.(lines := 1, pc := Closed, sent := cl.sent + [Error(NotLoggedIn)]));
      }
  }

  lemma EndsUnhappily(x: Cell, s: State, cl: Client, cl': Client)
    requires |cl'.sent| == |cl.sent| + 1 && cl'.sent[|cl.sent|] != Okay
    requires !cl'.inTx && (cl'.pc == Idle || cl'.pc == Closed)
    ensures GoesOn(x, s, cl', []) && !IsOpen(cl')
  {
    assert !AllOkay(cl'.sent);
  }

  lemma BeginRequest(x: Cell, s: State, cl: Client)
    requires cl.pc == Idle && cl.lines == 1 && IdleAt(x, 1, cl, []) && AllOkay(cl.sent)
    ensures Serve(cl, s.registry, Good(Content(BEGIN, []))) == Some(Respond(cl.(lines := 2, inTx := true), Okay))
    ensures GoesOn(x, s, Respond(cl.(lines := 2, inTx := true), Okay), [])
  {
  }

  lemma GetRequest(x: Cell, s: State, cl: Client)
    requires cl.pc == Idle && cl.lines == 2 && IdleAt(x, 2, cl, []) && AllOkay(cl.sent)
    requires x.table in s.registry && IsTable(x, s, s.registry[x.table])
    ensures Serve(cl, s.registry, Good(Content(GET, [x.table, x.key]))) ==
              Some(cl.(lines := 3, pc := TxAcquire(GetOp(x.key), s.registry[x.table])))
    ensures GoesOn(x, s, cl.(lines := 3, pc := TxAcquire(GetOp(x.key), s.registry[x.table])), [])
  {
  }

  lemma PushRequest(x: Cell, s: State, cl: Client, ops: seq<Op>)
    requires cl.pc == Idle && cl.lines == 3 && IdleAt(x, 3, cl, ops) && AllOkay(cl.sent)
    ensures Serve(cl, s.registry, Good(Content(PUSH, ["1"]))) == Some(Respond(cl.(lines := 4, stack := cl.stack + ["1"]), Okay))
    ensures GoesOn(x, s, Respond(cl.(lines := 4, stack := cl.stack + ["1"]), Okay), ops)
  {
    assert cl.stack + ["1"] == [ReadValue(x, ops), "1"];
  }

  lemma OneIsOne()
    ensures Stoi("1") == Value(1)
  {
    StoiOfToString(1);
    assert ToString(1) == "1";
  }

  /** The ADD of the program, on the value read and "1": it increments the value,
      or refuses, or brings the server down; it never does anything else. */
  lemma AddOfOne(v: string)
    ensures var r := Arith(Add, [v, "1"]);
            && (r.Next? ==> CanIncrement(v) && r.stack == [Incremented(v)])
            && (r.Refuse? ==> r.why == NotAnInteger)
  {
    OneIsOne();
    ArithOfTwo(Add, [v, "1"], Stoi(v), Stoi("1"));
    AddConverted(v, Stoi(v), Stoi("1"));
  }

  lemma AddConverted(v: string, l: Conversion, r: Conversion)
    requires r == Value(1)
    ensures var c := Conclude(Add, [v, "1"], Classify(l, r));
            && (c.Next? ==> l.Value? && IsInt(l.n + 1) && c.stack == [ToString(l.n + 1)])
            && (c.Refuse? ==> c.why == NotAnInteger)
  {
    assert [v, "1"][..0] == [];
  }

  lemma AddRequest(x: Cell, s: State, cl: Client, ops: seq<Op>)
    requires cl.pc == Idle && cl.lines == 4 && IdleAt(x, 4, cl, ops) && AllOkay(cl.sent)
    ensures var r := Serve(cl, s.registry, Good(Content(ADD, [])));
            r.Some? ==> GoesOn(x, s, r.value, ops) && r.value.locked == cl.locked
  {
    AddOfOne(ReadValue(x, ops));
    OperatorServed(cl, s.registry, Add);
    AddGoesOn(x, s, cl, ops, Arith(Add, cl.stack));
  }

  lemma AddGoesOn(x: Cell, s: State, cl: Client, ops: seq<Op>, r: Result)
    requires cl.pc == Idle && cl.lines == 4 && IdleAt(x, 4, cl, ops) && AllOkay(cl.sent)
    requires r.Next? ==> CanIncrement(ReadValue(x, ops)) && r.stack == [Incremented(ReadValue(x, ops))]
    ensures var c := Calculate(cl.(lines := cl.lines + 1), r);
            c.Some? ==> GoesOn(x, s, c.value, ops) && c.value.locked == cl.locked
  {
  }

  lemma SetRequest(x: Cell, s: State, cl: Client, ops: seq<Op>)
    requires cl.pc == Idle && cl.lines == 5 && IdleAt(x, 5, cl, ops) && AllOkay(cl.sent)
    requires x.table in s.registry && IsTable(x, s, s.registry[x.table])
    ensures Serve(cl, s.registry, Good(Content(SET, [x.table, x.key]))) ==
              Some(cl.(lines := 6, pc := TxAcquire(SetOp(x.key), s.registry[x.table])))
    ensures GoesOn(x, s, cl.(lines := 6, pc := TxAcquire(SetOp(x.key), s.registry[x.table])), ops)
  {
  }

  lemma CommitRequest(x: Cell, s: State, cl: Client, ops: seq<Op>)
    requires cl.pc == Idle && cl.lines == 6 && IdleAt(x, 6, cl, ops) && AllOkay(cl.sent)
    ensures var cl' := cl.(lines := 7, pc := Releasing(true, cl.locked, None, Ending(Some(Okay), false)));
            Serve(cl, s.registry, Good(Content(COMMIT, []))) == Some(cl') && GoesOn(x, s, cl', ops)
  {
  }

  lemma ByeRequest(x: Cell, s: State, cl: Client)
    requires cl.pc == Idle && cl.lines == 7 && IdleAt(x, 7, cl, []) && AllOkay(cl.sent)
    ensures var cl' := Quit(cl.(lines := 8), Okay);
            Serve(cl, s.registry, Good(Content(BYE, []))) == Some(cl') && GoesOn(x, s, cl', []) && !IsOpen(cl')
  {
  }

  /** A line of the program, at any point of it. */
  lemma ProgramRequest(x: Cell, s: State, cl: Client, ops: seq<Op>, text: string)
    requires IsCell(x) && x.table in s.registry && IsTable(x, s, s.registry[x.table])
    requires cl.pc == Idle && AllOkay(cl.sent) && cl.lines < 8 && IdleAt(x, cl.lines, cl, ops)
    requires cl.lines == 0 ==> cl.locked == {}
    requires !cl.inTx ==> ops == []
    requires cl.lines > 0 ==> text == Line(Script(x)[cl.lines - 1])
    ensures var r := Serve(cl, s.registry, Parse(text));
            r.Some? ==> GoesOn(x, s, r.value, ops)
    ensures MissingTable(cl, s.registry, Parse(text)) == None
  {
    if cl.lines == 0 {
      FirstRequest(x, s, cl, Parse(text));
    } else {
      ScriptParses(x, cl.lines - 1);
      ScriptRequest(x, s, cl, ops, Script(x)[cl.lines - 1]);
    }
  }

  lemma ScriptRequest(x: Cell, s: State, cl: Client, ops: seq<Op>, m: Content)
    requires x.table in s.registry && IsTable(x, s, s.registry[x.table])
    requires cl.pc == Idle && AllOkay(cl.sent) && 0 < cl.lines < 8 && IdleAt(x, cl.lines, cl, ops)
    requires !cl.inTx ==> ops == []
    requires m == Script(x)[cl.lines - 1]
    ensures var r := Serve(cl, s.registry, Good(m));
            r.Some? ==> GoesOn(x, s, r.value, ops)
    ensures MissingTable(cl, s.registry, Good(m)) == None
  {
    match cl.lines
    case 1 => BeginRequest(x, s, cl);
    case 2 => GetRequest(x, s, cl);
    case 3 => PushRequest(x, s, cl, ops);
    case 4 => AddRequest(x, s, cl, ops);
    case 5 => SetRequest(x, s, cl, ops);
    case 6 => CommitRequest(x, s, cl, ops);
    case 7 => ByeRequest(x, s, cl);
  }

  // ----- resumed threads --------------------------------------------------

  function Joined(ops: seq<Op>, op: Option<Op>): seq<Op> {
    if op.Some? then ops + [op.value] else ops
  }

  lemma ProgramAcquires(x: Cell, s: State, cl: Client, ops: seq<Op>, pick: nat)
    requires OnScript(x, s, cl, ops) && AllOkay(cl.sent) && cl.pc.TxAcquire?
    ensures var cl' := Resume(Line433Dropped, s, cl, pick).0;
            OnScript(x, s, cl', ops) && !(cl'.pc.Releasing? && cl'.pc.commit)
  {
  }

  lemma ProgramReads(x: Cell, s: State, cl: Client, ops: seq<Op>, pick: nat)
    requires OnScript(x, s, cl, ops) && AllOkay(cl.sent) && cl.pc.TxRun? && cl.pc.op.GetOp?
    ensures var cl' := Resume(Line433Dropped, s, cl, pick).0;
            OnScript(x, s, cl', Joined(ops, TableAccess(s, cl))) && !(cl'.pc.Releasing? && cl'.pc.commit)
  {
  }

  lemma ProgramWrites(x: Cell, s: State, cl: Client, ops: seq<Op>, pick: nat)
    requires OnScript(x, s, cl, ops) && AllOkay(cl.sent) && cl.pc.TxRun? && cl.pc.op.SetOp?
    ensures var cl' := Resume(Line433Dropped, s, cl, pick).0;
            OnScript(x, s, cl', Joined(ops, TableAccess(s, cl))) && !(cl'.pc.Releasing? && cl'.pc.commit)
  {
    var v := ReadValue(x, ops);
    assert cl.stack[..0] == [];
    WriteMove(s, cl, pick);
    assert TableAccess(s, cl) == Some(Write(x.table, x.key, Incremented(v)));
    WriteIncrements(x, ops);
  }

  lemma WriteMove(s: State, cl: Client, pick: nat)
    requires cl.pc.TxRun? && cl.pc.op.SetOp?
    ensures Resume(Line433Dropped, s, cl, pick).0 == Respond(cl.(stack := Popped(cl.stack)), Okay)
  {
  }

  lemma WriteIncrements(x: Cell, ops: seq<Op>)
    requires |ops| == 1 && HasRead(x, ops) && CanIncrement(ReadValue(x, ops))
    ensures IsIncrement(x, ops + [Write(x.table, x.key, Incremented(ReadValue(x, ops)))])
  {
  }

  lemma ProgramReleases(x: Cell, s: State, cl: Client, ops: seq<Op>, pick: nat)
    requires OnScript(x, s, cl, ops) && AllOkay(cl.sent) && cl.pc.Releasing?
    ensures OnScript(x, s, Resume(Line433Dropped, s, cl, pick).0, ops)
  {
    var cl' := Resume(Line433Dropped, s, cl, pick).0;
    if cl.pc.stage.None? && cl.pc.todo == {} && !cl.pc.commit && cl.pc.ending.reply.Some? {
      assert cl'.sent[|cl.sent|] != Okay;
    }
  }

  lemma ProgramResume(x: Cell, s: State, cl: Client, ops: seq<Op>, pick: nat)
    requires OnScript(x, s, cl, ops) && cl.pc != Idle && cl.pc != Closed
    ensures var cl' := Resume(Line433Dropped, s, cl, pick).0;
            && OnScript(x, s, cl', Joined(ops, TableAccess(s, cl)))
            && (IsOpen(cl) ==> !(cl'.pc.Releasing? && cl'.pc.commit))
  {
    if cl.pc.TxAcquire? {
      ProgramAcquires(x, s, cl, ops, pick);
    } else if cl.pc.Releasing? {
      ProgramReleases(x, s, cl, ops, pick);
    } else if cl.pc.op.GetOp? {
      ProgramReads(x, s, cl, ops, pick);
    } else {
      ProgramWrites(x, s, cl, ops, pick);
    }
  }

  // ----- the other clients ------------------------------------------------

  lemma OtherDispatch(x: Cell, s: State, cl: Client, ops: seq<Op>, m: Content)
    requires RegistryOk(s) && cl.pc == Idle && Avoids(x, ops) && LeavesAlone(x, Good(m))
    ensures var r := Dispatch(cl, s.registry, m); r.Some? ==> OffCell(x, s, r.value, ops)
  {
    match m.kind
    case ADD => OtherCalculate(x, s, cl, ops, Arith(Add, cl.stack));
    case SUB => OtherCalculate(x, s, cl, ops, Arith(Sub, cl.stack));
    case MUL => OtherCalculate(x, s, cl, ops, Arith(Mul, cl.stack));
    case DIV => OtherCalculate(x, s, cl, ops, Arith(Div, cl.stack));
    case _ =>
  }

  lemma OtherCalculate(x: Cell, s: State, cl: Client, ops: seq<Op>, r: Result)
    requires cl.pc == Idle && Avoids(x, ops)
    ensures Calculate(cl, r).Some? ==> OffCell(x, s, Calculate(cl, r).value, ops)
  {
  }

  lemma OtherRequest(x: Cell, s: State, cl: Client, ops: seq<Op>, p: Parsed)
    requires RegistryOk(s) && cl.pc == Idle && Avoids(x, ops) && LeavesAlone(x, p)
    ensures var r := Serve(cl, s.registry, p); r.Some? ==> OffCell(x, s, r.value, ops)
  {
    var counted := cl.(lines := cl.lines + 1);
    if p.Good? && p.m.kind != LOGIN && cl.loggedIn {
      assert Serve(cl, s.registry, p) == Dispatch(counted, s.registry, p.m);
      OtherDispatch(x, s, counted, ops, p.m);
    }
  }

  lemma OtherResume(x: Cell, s: State, cl: Client, ops: seq<Op>, pick: nat)
    requires OffCell(x, s, cl, ops)
    ensures var cl' := Resume(Line433Dropped, s, cl, pick).0;
            OffCell(x, s, cl', Joined(ops, TableAccess(s, cl)))
    ensures TableAccess(s, cl).Some? ==> !WritesCell(x, TableAccess(s, cl).value)
  {
  }

  // ----- the record -------------------------------------------------------

  lemma LogAppend(x: Cell, who: set<ClientId>, log: seq<Unit>, u: Unit)
    requires LogOk(x, who, log) && UnitOk(x, who, u)
    ensures LogOk(x, who, log + [u])
  {
  }

  /** How a step's record extends the history, if its units are in order. */
  lemma RecordInOrder(x: Cell, who: set<ClientId>, h: Hist, c: ClientId, op: Option<Op>, created: Option<Unit>, before: bool, cl': Client)
    requires LogOk(x, who, h.log) && (before <==> c in h.open)
    requires op.Some? && !before ==> !WritesCell(x, op.value)
    requires created.Some? ==> created.value.Create?
    requires before && cl'.pc.Releasing? && cl'.pc.commit ==> UnitOk(x, who, Txn(c, Joined(h.open[c], op), true))
    ensures var h1 := Note(h, c, op);
            var h2 := if created.Some? then h1.(log := h1.log + [created.value]) else h1;
            var h' := Bound(h2, c, before, cl');
            && LogOk(x, who, h'.log)
            && (forall d | d != c :: OpsOf(h', d) == OpsOf(h, d))
            && (IsOpen(cl') && before ==> OpsOf(h', c) == Joined(OpsOf(h, c), op))
            && (IsOpen(cl') && !before ==> OpsOf(h', c) == [])
            && (!IsOpen(cl') ==> OpsOf(h', c) == [])
  {
    var h1 := Note(h, c, op);
    if op.Some? && !before {
      LogAppend(x, who, h.log, One(c, op.value));
    }
    if created.Some? {
      LogAppend(x, who, h1.log, created.value);
    }
    var h2 := if created.Some? then h1.(log := h1.log + [created.value]) else h1;
    if before && !IsOpen(cl') {
      LogAppend(x, who, h2.log, Txn(c, h2.open[c], cl'.pc.Releasing? && cl'.pc.commit));
    }
  }

  // ----- every step -------------------------------------------------------

  /** Outside an open transaction its record does not matter. */
  lemma RecordIsSettled(x: Cell, s: State, cl: Client, ops: seq<Op>, ops': seq<Op>)
    requires OnScript(x, s, cl, ops) && !IsOpen(cl)
    ensures OnScript(x, s, cl, ops')
  {
  }

  ghost predicate OpenIsOpen(h: Hist, s: State) {
    forall c :: c in h.open <==> c in s.clients && IsOpen(s.clients[c])
  }

  /** The moving client is in place afterwards, and the history in order. */
  ghost predicate MoveIsInPlace(x: Cell, who: set<ClientId>, h: Hist, h': Hist, s: State, c: ClientId, cl': Client) {
    && InPlace(x, who, s, c, cl', OpsOf(h', c))
    && LogOk(x, who, h'.log)
    && forall d | d != c :: OpsOf(h', d) == OpsOf(h, d)
  }

  lemma ProgramTakesLine(x: Cell, who: set<ClientId>, h: Hist, s: State, c: ClientId, text: string)
    requires IsCell(x) && x.table in s.registry && IsTable(x, s, s.registry[x.table])
    requires LogOk(x, who, h.log) && OpenIsOpen(h, s) && c in who && c in s.clients
    requires ClientOk(s, s.clients[c]) && OnScript(x, s, s.clients[c], OpsOf(h, c)) && s.clients[c].pc == Idle
    requires Obeys(x, who, s, Act(c, Request(text)))
    ensures var p, cl' := Parse(text), Receive(s, s.clients[c], Parse(text)).0;
            MoveIsInPlace(x, who, h, Bound(Note(h, c, MissingTable(s.clients[c], s.registry, p)), c, IsOpen(s.clients[c]), cl'), s, c, cl')
  {
    var cl, ops := s.clients[c], OpsOf(h, c);
    ProgramRequest(x, s, cl, ops, text);
    var cl' := Receive(s, cl, Parse(text)).0;
    LineInPlace(x, who, h, s, c, cl');
  }

  lemma LineInPlace(x: Cell, who: set<ClientId>, h: Hist, s: State, c: ClientId, cl': Client)
    requires LogOk(x, who, h.log) && OpenIsOpen(h, s) && c in who && c in s.clients && s.clients[c].pc == Idle
    requires GoesOn(x, s, cl', OpsOf(h, c))
    ensures MoveIsInPlace(x, who, h, Bound(Note(h, c, None), c, IsOpen(s.clients[c]), cl'), s, c, cl')
  {
    RecordInOrder(x, who, h, c, None, None, IsOpen(s.clients[c]), cl');
    if !IsOpen(cl') {
      RecordIsSettled(x, s, cl', OpsOf(h, c), []);
    }
  }

  lemma OtherTakesLine(x: Cell, who: set<ClientId>, h: Hist, s: State, c: ClientId, p: Parsed)
    requires RegistryOk(s) && LogOk(x, who, h.log) && OpenIsOpen(h, s) && c !in who && c in s.clients
    requires OffCell(x, s, s.clients[c], OpsOf(h, c)) && s.clients[c].pc == Idle && LeavesAlone(x, p)
    requires ClientOk(s, s.clients[c])
    ensures var cl' := Receive(s, s.clients[c], p).0;
            MoveIsInPlace(x, who, h, Bound(Note(h, c, MissingTable(s.clients[c], s.registry, p)), c, IsOpen(s.clients[c]), cl'), s, c, cl')
  {
    var cl := s.clients[c];
    OtherRequest(x, s, cl, OpsOf(h, c), p);
    ServeHasShape(cl, s.registry, p);
    var cl' := Receive(s, cl, p).0;
    var op := MissingTable(cl, s.registry, p);
    RecordInOrder(x, who, h, c, op, None, IsOpen(cl), cl');
  }

  lemma ClientResumes(x: Cell, who: set<ClientId>, h: Hist, s: State, c: ClientId, pick: nat)
    requires LogOk(x, who, h.log) && OpenIsOpen(h, s) && c in s.clients
    requires InPlace(x, who, s, c, s.clients[c], OpsOf(h, c)) && s.clients[c].pc != Idle && s.clients[c].pc != Closed
    requires ClientOk(s, s.clients[c])
    ensures var cl' := Resume(Line433Dropped, s, s.clients[c], pick).0;
            MoveIsInPlace(x, who, h, Recorded(h, s, c, cl'), s, c, cl')
  {
    var cl, ops := s.clients[c], OpsOf(h, c);
    var cl', op := Resume(Line433Dropped, s, cl, pick).0, TableAccess(s, cl);
    if c in who {
      ProgramResume(x, s, cl, ops, pick);
    } else {
      OtherResume(x, s, cl, ops, pick);
    }
    ResumeInPlace(x, who, h, s, c, op, cl');
  }

  lemma ResumeInPlace(x: Cell, who: set<ClientId>, h: Hist, s: State, c: ClientId, op: Option<Op>, cl': Client)
    requires LogOk(x, who, h.log) && OpenIsOpen(h, s) && c in s.clients && op == TableAccess(s, s.clients[c])
    requires InPlace(x, who, s, c, cl', Joined(OpsOf(h, c), op))
    requires c in who && IsOpen(s.clients[c]) ==> !(cl'.pc.Releasing? && cl'.pc.commit)
    requires op.Some? && !IsOpen(s.clients[c]) ==> !WritesCell(x, op.value)
    requires IsOpen(cl') ==> IsOpen(s.clients[c])
    ensures MoveIsInPlace(x, who, h, Recorded(h, s, c, cl'), s, c, cl')
  {
    var cl := s.clients[c];
    RecordInOrder(x, who, h, c, op, Creation(s, c, cl), IsOpen(cl), cl');
    if !IsOpen(cl') && c in who {
      RecordIsSettled(x, s, cl', Joined(OpsOf(h, c), op), []);
    }
  }

  lemma ClientHangsUp(x: Cell, who: set<ClientId>, h: Hist, s: State, c: ClientId)
    requires LogOk(x, who, h.log) && OpenIsOpen(h, s) && c in s.clients
    requires InPlace(x, who, s, c, s.clients[c], OpsOf(h, c)) && s.clients[c].pc == Idle
    ensures var cl' := Abort(s.clients[c], Ending(None, true));
            MoveIsInPlace(x, who, h, Bound(h, c, IsOpen(s.clients[c]), cl'), s, c, cl')
  {
    var cl' := Abort(s.clients[c], Ending(None, true));
    RecordInOrder(x, who, h, c, None, None, IsOpen(s.clients[c]), cl');
  }

  lemma MoveInPlace(x: Cell, who: set<ClientId>, h: Hist, s: State, a: Action)
    requires IsCell(x) && x.table in s.registry && LockInv(s) && LogOk(x, who, h.log) && OpenIsOpen(h, s)
    requires Enabled(s, a) && Obeys(x, who, s, a)
    requires a.c in s.clients ==> InPlace(x, who, s, a.c, s.clients[a.c], OpsOf(h, a.c))
    ensures MoveIsInPlace(x, who, h, Record(Line433Dropped, h, s, a), s, a.c, Move(Line433Dropped, s, a).0)
  {
    assert a.c in s.clients ==> ClientOk(s, s.clients[a.c]);
    match a.input
    case Connect =>
    case Request(text) =>
      if a.c in who {
        ProgramTakesLine(x, who, h, s, a.c, text);
      } else {
        OtherTakesLine(x, who, h, s, a.c, Parse(text));
      }
    case Eof => ClientHangsUp(x, who, h, s, a.c);
    case Go(pick) => ClientResumes(x, who, h, s, a.c, pick);
  }

  lemma InPlaceFrame(x: Cell, who: set<ClientId>, s: State, s': State, c: ClientId, cl: Client, ops: seq<Op>)
    requires InPlace(x, who, s, c, cl, ops) && Extends(s, s')
    ensures InPlace(x, who, s', c, cl, ops)
  {
  }

  lemma StepInPlace(x: Cell, who: set<ClientId>, h: Hist, s: State, a: Action)
    requires IsCell(x) && x.table in s.registry && LockInv(s) && LogOk(x, who, h.log) && OpenIsOpen(h, s)
    requires Enabled(s, a) && Obeys(x, who, s, a) && AllInPlace(x, who, s, h)
    ensures var h', s' := Record(Line433Dropped, h, s, a), Step(Line433Dropped, s, a);
            LogOk(x, who, h'.log) && AllInPlace(x, who, s', h') && x.table in s'.registry
  {
    MoveInPlace(x, who, h, s, a);
    LocksHold(s);
    StepExtends(Line433Dropped, s, a);
    var h', s', m := Record(Line433Dropped, h, s, a), Step(Line433Dropped, s, a), Move(Line433Dropped, s, a);
    ApplyClients(s, a.c, m);
    forall d | d in s'.clients ensures InPlace(x, who, s', d, s'.clients[d], OpsOf(h', d)) {
      InPlaceFrame(x, who, s, s', d, s'.clients[d], OpsOf(h', d));
    }
  }

  lemma {:induction false} RunInPlace(x: Cell, who: set<ClientId>, v: Variant, s: State, run: seq<Action>)
    requires IsCell(x) && AtRest(s) && Sound(v, s, run) && Obedient(x, who, v, s, run)
    requires x.table in s.registry && who !! s.clients.Keys
    ensures var z, h := After(v, s, run), HistoryOf(v, s, run);
            LogOk(x, who, h.log) && AllInPlace(x, who, z, h) && x.table in z.registry
  {
    if run != [] {
      var n := |run| - 1;
      SoundPrefix(v, s, run);
      RunInPlace(x, who, v, s, run[..n]);
      var y, h := After(v, s, run[..n]), HistoryOf(v, s, run[..n]);
      LocksOnEveryRun(v, s, run[..n]);
      RunIsFaithful(v, s, run[..n]);
      StepInPlace(x, who, h, y, run[n]);
      if v == AsWritten {
        SameStep(y, run[n]);
        SameRecord(h, y, run[n]);
      }
    }
  }

  /** The cell's committed entry, as soon as a commit under way has reached it, denotes `n`. */
  predicate CellReads(x: Cell, z: State, n: int) {
    && x.table in z.registry && z.registry[x.table] in z.tables
    && var t := z.registry[x.table];
       var store := if Status(z, t) == CommitDue then Commit(z.tables[t].store) else z.tables[t].store;
       x.key in store.committed && Stoi(store.committed[x.key]) == Value(n)
  }

  /** No lost updates. Any number of `incr_value -t` clients, among any other
      clients that do not SET the key, interleaved in any way and failing at any
      point: the entry always denotes its initial value plus the number of the
      program's COMMITs processed. (While such a COMMIT has yet to reach the table
      in its release, this is what `commit_changes` is about to make of it.) */
  lemma {:induction false} NoLostUpdates(x: Cell, who: set<ClientId>, v: Variant, s: State, run: seq<Action>, n: int)
    requires IsCell(x) && AtRest(s) && Sound(v, s, run) && Obedient(x, who, v, s, run)
    requires x.table in s.registry && who !! s.clients.Keys
    requires Holds(x, CommittedDb(s), n)
    ensures CellReads(x, After(v, s, run), n + Commits(who, HistoryOf(v, s, run).log))
  {
    var db, z := CountedDb(x, who, v, s, run, n);
    CellShows(x, db, z, n + Commits(who, HistoryOf(v, s, run).log));
  }

  lemma {:induction false} CountedDb(x: Cell, who: set<ClientId>, v: Variant, s: State, run: seq<Action>, n: int) returns (db: Db, z: State)
    requires IsCell(x) && AtRest(s) && Sound(v, s, run) && Obedient(x, who, v, s, run)
    requires x.table in s.registry && who !! s.clients.Keys
    requires Holds(x, CommittedDb(s), n)
    ensures z == After(v, s, run) && RowsAreIn(db, z) && x.table in z.registry
    ensures Holds(x, db, n + Commits(who, HistoryOf(v, s, run).log))
  {
    RunCounts(x, who, v, s, run, n);
    RunShowsDb(v, s, run);
    db, z := Replay(CommittedDb(s), HistoryOf(v, s, run).log), After(v, s, run);
  }

  /** The same count in the serial database. */
  lemma {:induction false} RunCounts(x: Cell, who: set<ClientId>, v: Variant, s: State, run: seq<Action>, n: int)
    requires IsCell(x) && AtRest(s) && Sound(v, s, run) && Obedient(x, who, v, s, run)
    requires x.table in s.registry && who !! s.clients.Keys
    requires Holds(x, CommittedDb(s), n)
    ensures x.table in After(v, s, run).registry
    ensures Holds(x, Replay(CommittedDb(s), HistoryOf(v, s, run).log), n + Commits(who, HistoryOf(v, s, run).log))
  {
    RunInPlace(x, who, v, s, run);
    RunIsFaithful(v, s, run);
    ReplayCounts(x, who, CommittedDb(s), HistoryOf(v, s, run).log, n);
  }

  /** The serial database and the tables that are to hold its rows. */
  predicate RowsAreIn(db: Db, z: State) {
    && RegistryOk(z)
    && (forall t | t in z.tables :: z.tables[t].name in db)
    && (forall t | t in z.tables :: db[z.tables[t].name] ==
          (if Status(z, t) == CommitDue then Commit(z.tables[t].store) else z.tables[t].store).committed)
  }

  lemma {:induction false} RunShowsDb(v: Variant, s: State, run: seq<Action>)
    requires AtRest(s) && Sound(v, s, run)
    ensures RowsAreIn(Replay(CommittedDb(s), HistoryOf(v, s, run).log), After(v, s, run))
  {
    EveryRunIsSerializable(v, s, run);
    LocksOnEveryRun(v, s, run);
  }

  /** From the serial database back to the table. */
  lemma CellShows(x: Cell, db: Db, z: State, n: int)
    requires RowsAreIn(db, z) && x.table in z.registry && Holds(x, db, n)
    ensures CellReads(x, z, n)
  {
  }
}
