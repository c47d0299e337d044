/** What a GET that misses does to others, in the code as written: three runs, each told
    by its request lines, and each from the empty server as well. */
module Damage {
  import opened Alone
  import opened Codec
  import opened Digits
  import opened Engine
  import opened Increment
  import opened Messages
  import opened Requests
  import opened Runs
  import opened Scenes
  import opened Serial
  import opened Sessions
  import opened StackMachine
  import opened StrayUnlock
  import opened Tables
  import opened Values
  import opened Wrappers

  /** Idle, logged in, outside transactions. */
  predicate IsFree(s: State, c: ClientId) {
    c in s.clients && s.clients[c].pc == Idle && s.clients[c].loggedIn && !s.clients[c].inTx && s.clients[c].locked == {}
  }

  /** A table nobody has locked, with a key that is there or not, and one that is not. */
  predicate IsStage(s: State, t: TableId, x: Cell, w: Cell) {
    && IsSet(s, t) && IsHere(s, t, x) && IsHere(s, t, w) && s.tables[t].owner == None
    && x.key != w.key && !HasKey(s.tables[t].store, w.key)
  }

  // ----- pieces -----------------------------------------------------------

  /** An autocommit SET up to its proposal: `commit_changes` is next. */
  lemma {:induction false} SetsHalfWay(s: State, t: TableId, run: seq<Action>, sc: Scene, c: ClientId, y: Cell)
    returns (run': seq<Action>, next: Scene)
    requires IsSet(s, t) && Leads(s, t, run, sc) && IsReady(sc, t, c) && IsHere(s, t, y)
    requires !sc.cast[c].inTx && sc.table.owner == None && sc.cast[c].stack != []
    ensures var cl := Counted(sc.cast[c]);
            next == Later(sc, c, By(c, AccessLine(y, SetOp(y.key))), cl.(pc := AutoCommit(t), stack := Popped(cl.stack)),
                          sc.table.(store := Put(sc.table.store, y.key, TopOf(cl.stack)), owner := Some(c)))
    ensures Leads(s, t, run', next)
  {
    var line := By(c, AccessLine(y, SetOp(y.key)));
    var first, second;
    run', first := Approaches(s, t, run, sc, c, y, SetOp(y.key));
    run', second := TakesLock(s, t, run', first, c);
    Quietly(sc, c, line, first, second);
    run', next := Puts(s, t, run', second, c);
    Quietly(sc, c, line, second, next);
  }

  /** A turn without a line of its own. */
  lemma Quietly(sc: Scene, c: ClientId, line: Lines, mid: Scene, next: Scene)
    requires c in mid.cast && c in next.cast && mid == Later(sc, c, line, mid.cast[c], mid.table)
    requires next == Later(mid, c, [], next.cast[c], next.table)
    ensures next == Later(sc, c, line, next.cast[c], next.table)
  {
    LaterStill(sc, c, line, mid.cast[c], mid.table, [], next.cast[c], next.table);
    assert line + [] == line;
  }

  /** Its `commit_changes`, unlock and reply. */
  lemma {:induction false} SetsTheRest(s: State, t: TableId, run: seq<Action>, sc: Scene, c: ClientId)
    returns (run': seq<Action>, next: Scene)
    requires IsSet(s, t) && Leads(s, t, run, sc) && c in sc.cast && sc.cast[c].pc == AutoCommit(t)
    ensures next == Later(sc, c, [], Respond(sc.cast[c], Okay), sc.table.(store := Commit(sc.table.store), owner := None))
    ensures Leads(s, t, run', next)
  {
    var mid;
    run', mid := CommitsChanges(s, t, run, sc, c);
    run', next := GivesBack(s, t, run', mid, c);
    Quietly(sc, c, [], mid, next);
  }

  /** An autocommit GET misses: it has unlocked the table once and will do so again. */
  lemma {:induction false} MissesAlone(s: State, t: TableId, run: seq<Action>, sc: Scene, c: ClientId, w: Cell) returns (run': seq<Action>, next: Scene)
    requires IsSet(s, t) && Leads(s, t, run, sc) && IsReady(sc, t, c) && IsHere(s, t, w)
    requires !sc.cast[c].inTx && sc.table.owner == None && !HasKey(sc.table.store, w.key)
    ensures next == Later(sc, c, By(c, AccessLine(w, GetOp(w.key))),
                          Counted(sc.cast[c]).(pc := AutoUnlock(t, Failed(KeyNotFound))), sc.table)
    ensures Leads(s, t, run', next)
  {
    var line := By(c, AccessLine(w, GetOp(w.key)));
    var first, second, third;
    run', first := Approaches(s, t, run, sc, c, w, GetOp(w.key));
    run', second := TakesLock(s, t, run', first, c);
    Quietly(sc, c, line, first, second);
    run', third := LooksInVain(s, t, run', second, c);
    Quietly(sc, c, line, second, third);
    run', next := Strays(s, t, run', third, c);
    Quietly(sc, c, line, third, next);
  }

  /** A client that has read `v` pushes a one and adds. */
  lemma {:induction false} AddsOne(s: State, t: TableId, run: seq<Action>, sc: Scene, c: ClientId, v: string) returns (run': seq<Action>, next: Scene)
    requires IsSet(s, t) && Leads(s, t, run, sc) && IsReady(sc, t, c) && sc.cast[c].stack == [v] && CanIncrement(v)
    ensures next == Later(sc, c, [(c, PushLine("1")), (c, BareLine(ADD))], Added(sc.cast[c], v), sc.table)
    ensures Leads(s, t, run', next)
  {
    OneIsValue();
    var mid;
    run', mid := Pushes(s, t, run, sc, c, "1");
    run', next := Adds(s, t, run', mid, c, v);
    AddedIs(sc.cast[c], v);
    Twice(sc, c, PushLine("1"), mid, BareLine(ADD), next);
  }

  /** Two lines, two turns. */
  lemma Twice(sc: Scene, c: ClientId, line1: string, mid: Scene, line2: string, next: Scene)
    requires c in mid.cast && c in next.cast && mid == Later(sc, c, By(c, line1), mid.cast[c], mid.table)
    requires next == Later(mid, c, By(c, line2), next.cast[c], next.table)
    ensures next == Later(sc, c, [(c, line1), (c, line2)], next.cast[c], next.table)
  {
    LaterStill(sc, c, By(c, line1), mid.cast[c], mid.table, By(c, line2), next.cast[c], next.table);
    assert By(c, line1) + By(c, line2) == [(c, line1), (c, line2)];
  }

  lemma AddedIs(cl: Client, v: string)
    requires CanIncrement(v)
    ensures var pushed := Respond(Counted(cl).(stack := cl.stack + ["1"]), Okay);
            Respond(Counted(pushed).(stack := [Incremented(v)]), Okay) == Added(cl, v)
  {
    assert cl.sent + [Okay] + [Okay] == cl.sent + [Okay, Okay];
  }

  lemma {:induction false} Adds(s: State, t: TableId, run: seq<Action>, sc: Scene, c: ClientId, v: string) returns (run': seq<Action>, next: Scene)
    requires IsSet(s, t) && Leads(s, t, run, sc) && IsReady(sc, t, c) && sc.cast[c].stack == [v] + ["1"] && CanIncrement(v)
    ensures next == Later(sc, c, By(c, BareLine(ADD)), Respond(Counted(sc.cast[c]).(stack := [Incremented(v)]), Okay), sc.table)
    ensures Leads(s, t, run', next)
  {
    AddServed(Counted(sc.cast[c]), s.registry, Content(ADD, []), v);
    BareParses(ADD);
    run', next := Asks(s, t, run, sc, c, Content(ADD, []), Respond(Counted(sc.cast[c]).(stack := [Incremented(v)]), Okay));
  }

  function Added(cl: Client, v: string): Client
    requires CanIncrement(v)
  {
    cl.(pc := Idle, stack := [Incremented(v)], lines := cl.lines + 2, sent := cl.sent + [Okay, Okay])
  }

  lemma AddServed(cl: Client, registry: map<string, TableId>, m: Content, v: string)
    requires cl.stack == [v] + ["1"] && CanIncrement(v) && m.kind == ADD
    ensures Dispatch(cl, registry, m) == Some(Respond(cl.(stack := [Incremented(v)]), Okay))
  {
    OperatorDispatched(cl, registry, m, Add);
    AddingOne(v);
    CalculateNext(cl, Arith(Add, cl.stack), [Incremented(v)]);
  }

  lemma AddingOne(v: string)
    requires CanIncrement(v)
    ensures Arith(Add, [v] + ["1"]) == StackMachine.Next([Incremented(v)])
  {
    OneIsOne();
    ArithOfTwo(Add, [v] + ["1"], Stoi(v), Stoi("1"));
    ConvertedAddsOne([v] + ["1"], Stoi(v), Stoi("1"));
  }

  lemma ConvertedAddsOne(stack: seq<string>, l: Conversion, r: Conversion)
    requires |stack| == 2 && l.Value? && r == Value(1) && IsInt(l.n + 1)
    ensures Conclude(Add, stack, Classify(l, r)) == StackMachine.Next([ToString(l.n + 1)])
  {
    ArithOfBoth(Add, stack, l, r);
    assert stack[..0] + [ToString(l.n + 1)] == [ToString(l.n + 1)];
  }

  lemma CalculateNext(cl: Client, r: Result, items: seq<string>)
    requires r == StackMachine.Next(items)
    ensures Calculate(cl, r) == Some(Respond(cl.(stack := items), Okay))
  {
  }

  lemma OneIsValue()
    ensures IsValue("1")
  {
    OneIsOne();
  }

  /** A client that has a number to store stores it and commits. */
  lemma {:induction false} Stores(s: State, t: TableId, run: seq<Action>, sc: Scene, c: ClientId, x: Cell, v: string)
    returns (run': seq<Action>, next: Scene)
    requires IsSet(s, t) && Leads(s, t, run, sc) && IsReady(sc, t, c) && IsHere(s, t, x)
    requires sc.cast[c].inTx && sc.cast[c].locked == {t} && sc.cast[c].stack == [v]
    ensures next == Later(sc, c, [(c, AccessLine(x, SetOp(x.key))), (c, BareLine(COMMIT))], Stored(sc.cast[c]),
                          ReleasedTable(true, sc.table.(store := Put(sc.table.store, x.key, v))))
    ensures Leads(s, t, run', next)
  {
    var mid;
    assert [v][..0] == [];
    run', mid := SetsInside(s, t, run, sc, c, x);
    run', next := CommitsAll(s, t, run', mid, c);
    Twice(sc, c, AccessLine(x, SetOp(x.key)), mid, BareLine(COMMIT), next);
    assert sc.cast[c].sent + [Okay] + [Okay] == sc.cast[c].sent + [Okay, Okay];
  }

  function Stored(cl: Client): Client {
    cl.(pc := Idle, stack := [], inTx := false, locked := {}, lines := cl.lines + 2, sent := cl.sent + [Okay, Okay])
  }

  // ----- a rollback that takes hold of others' work -----------------------

  /** What client `a` asks for until its transaction fails for want of key `w`. */
  function FailingLines(a: ClientId, x: Cell, w: Cell, v: string): Lines {
    [(a, BareLine(BEGIN)), (a, PushLine(v)), (a, AccessLine(x, SetOp(x.key))), (a, AccessLine(w, GetOp(w.key)))]
  }

  /** A transaction SETs a key and then misses another: its rollback is due, its table
      is free, its proposal still there. */
  lemma {:induction false} Fails(s: State, t: TableId, a: ClientId, b: ClientId, x: Cell, w: Cell, v: string)
    returns (run: seq<Action>, sc: Scene)
    requires IsStage(s, t, x, w) && IsValue(v) && a != b && IsFree(s, a) && IsFree(s, b)
    ensures Leads(s, t, run, sc) && sc.asked == FailingLines(a, x, w, v)
    ensures sc.table == s.tables[t].(store := Put(s.tables[t].store, x.key, v))
    ensures sc.cast.Keys == {a, b} && sc.cast[b] == s.clients[b]
    ensures sc.cast[a].pc == Releasing(false, {t}, None, Ending(Some(Failed(KeyNotFound)), false))
  {
    run, sc := Proposes(s, t, a, b, x, v);
    run, sc := MissesInside(s, t, run, sc, a, w);
  }

  lemma {:induction false} Proposes(s: State, t: TableId, a: ClientId, b: ClientId, x: Cell, v: string)
    returns (run: seq<Action>, sc: Scene)
    requires IsSet(s, t) && IsHere(s, t, x) && s.tables[t].owner == None
    requires IsValue(v) && a != b && IsFree(s, a) && IsFree(s, b)
    ensures Leads(s, t, run, sc) && sc.asked == [(a, BareLine(BEGIN)), (a, PushLine(v)), (a, AccessLine(x, SetOp(x.key)))]
    ensures sc.table == s.tables[t].(store := Put(s.tables[t].store, x.key, v), owner := Some(a))
    ensures sc.cast.Keys == {a, b} && sc.cast[b] == s.clients[b]
    ensures IsReady(sc, t, a) && sc.cast[a].inTx && sc.cast[a].locked == {t}
  {
    sc := Curtain(s, t, map[a := s.clients[a], b := s.clients[b]]);
    run := [];
    run, sc := Begins(s, t, run, sc, a);
    run, sc := Pushes(s, t, run, sc, a, v);
    run, sc := SetsInside(s, t, run, sc, a, x);
  }

  /** Another client's autocommit SET commits the failed transaction's entry along with
      its own: `commit_changes` takes all proposals. */
  lemma {:induction false} AbortedSetIsCommitted(s: State, t: TableId, a: ClientId, b: ClientId, x: Cell, y: Cell, w: Cell, v: string, u: string)
    returns (run: seq<Action>, sc: Scene)
    requires IsStage(s, t, x, w) && IsHere(s, t, y) && y.key != x.key
    requires IsValue(v) && IsValue(u) && a != b && IsFree(s, a) && IsFree(s, b)
    ensures Leads(s, t, run, sc)
    ensures sc.asked == FailingLines(a, x, w, v) + [(b, PushLine(u)), (b, AccessLine(y, SetOp(y.key)))]
    ensures sc.cast.Keys == {a, b} && sc.cast[a].pc == Idle && !sc.cast[a].inTx && sc.cast[b].pc == Idle
    ensures sc.cast[a].sent != [] && sc.cast[a].sent[|sc.cast[a].sent| - 1] == Failed(KeyNotFound)
    ensures x.key in sc.table.store.committed && sc.table.store.committed[x.key] == v && sc.table.owner == None
  {
    run, sc := Fails(s, t, a, b, x, w, v);
    run, sc := Pushes(s, t, run, sc, b, u);
    run, sc := SetsAlone(s, t, run, sc, b, y);
    run, sc := Releases(s, t, run, sc, a);
  }

  /** The other way round: the rollback clears all proposals, among them that of an
      autocommit SET under way, which is then answered OK for nothing. */
  lemma {:induction false} AnsweredSetIsWiped(s: State, t: TableId, a: ClientId, b: ClientId, x: Cell, y: Cell, w: Cell, v: string, u: string)
    returns (run: seq<Action>, sc: Scene)
    requires IsStage(s, t, x, w) && IsHere(s, t, y) && !HasKey(s.tables[t].store, y.key)
    requires IsValue(v) && IsValue(u) && a != b && IsFree(s, a) && IsFree(s, b)
    ensures Leads(s, t, run, sc)
    ensures sc.asked == FailingLines(a, x, w, v) + [(b, PushLine(u)), (b, AccessLine(y, SetOp(y.key)))]
    ensures sc.cast.Keys == {a, b} && sc.cast[b].pc == Idle && sc.cast[b].sent == s.clients[b].sent + [Okay, Okay]
    ensures !HasKey(sc.table.store, y.key)
  {
    run, sc := Overlaps(s, t, a, b, x, y, w, v, u);
    var st := sc.table.store;
    run, sc := WipesIt(s, t, run, sc, a, b);
    WipedIsGone(st, y.key);
  }

  /** A rollback and a SET are both under way. */
  lemma {:induction false} Overlaps(s: State, t: TableId, a: ClientId, b: ClientId, x: Cell, y: Cell, w: Cell, v: string, u: string)
    returns (run: seq<Action>, sc: Scene)
    requires IsStage(s, t, x, w) && IsHere(s, t, y) && IsValue(v) && IsValue(u) && a != b && IsFree(s, a) && IsFree(s, b)
    ensures Leads(s, t, run, sc)
    ensures sc.asked == FailingLines(a, x, w, v) + [(b, PushLine(u)), (b, AccessLine(y, SetOp(y.key)))]
    ensures sc.cast.Keys == {a, b} && sc.cast[b].pc == AutoCommit(t) && sc.cast[b].sent == s.clients[b].sent + [Okay]
    ensures sc.cast[a].pc == Releasing(false, {t}, None, Ending(Some(Failed(KeyNotFound)), false))
    ensures sc.table.store.committed == s.tables[t].store.committed
  {
    run, sc := Fails(s, t, a, b, x, w, v);
    run, sc := Pushes(s, t, run, sc, b, u);
    run, sc := SetsHalfWay(s, t, run, sc, b, y);
  }

  lemma WipedIsGone(st: Store, k: string)
    requires k !in st.committed
    ensures !HasKey(Commit(Rollback(st)), k)
  {
  }

  lemma {:induction false} WipesIt(s: State, t: TableId, run: seq<Action>, sc: Scene, a: ClientId, b: ClientId)
    returns (run': seq<Action>, next: Scene)
    requires IsSet(s, t) && Leads(s, t, run, sc) && sc.cast.Keys == {a, b} && a != b
    requires sc.cast[a].pc == Releasing(false, {t}, None, Ending(Some(Failed(KeyNotFound)), false)) && sc.cast[b].pc == AutoCommit(t)
    ensures Leads(s, t, run', next) && next.asked == sc.asked && next.cast.Keys == {a, b}
    ensures next.cast[b].pc == Idle && next.cast[b].sent == sc.cast[b].sent + [Okay]
    ensures next.table.store == Commit(Rollback(sc.table.store))
  {
    run', next := Releases(s, t, run, sc, a);
    run', next := SetsTheRest(s, t, run', next, b);
  }

  // ----- two increments that count for one --------------------------------

  /** The requests of an increment after its GET. */
  function Rest(c: ClientId, x: Cell): Lines {
    [(c, PushLine("1")), (c, BareLine(ADD)), (c, AccessLine(x, SetOp(x.key))), (c, BareLine(COMMIT))]
  }

  /** A client that has read `v` finishes its increment, undisturbed. */
  lemma {:induction false} Increments(s: State, t: TableId, run: seq<Action>, sc: Scene, c: ClientId, x: Cell, v: string)
    returns (run': seq<Action>, next: Scene)
    requires IsSet(s, t) && Leads(s, t, run, sc) && IsReady(sc, t, c) && IsHere(s, t, x) && CanIncrement(v)
    requires sc.cast[c].inTx && sc.cast[c].locked == {t} && sc.cast[c].stack == [v]
    ensures next == Later(sc, c, Rest(c, x), Stored(Added(sc.cast[c], v)),
                          ReleasedTable(true, sc.table.(store := Put(sc.table.store, x.key, Incremented(v)))))
    ensures Leads(s, t, run', next)
  {
    var mid;
    run', mid := AddsOne(s, t, run, sc, c, v);
    run', next := Stores(s, t, run', mid, c, x, Incremented(v));
    RestParts(c, x);
    LaterStill(sc, c, Rest(c, x)[..2], mid.cast[c], mid.table, Rest(c, x)[2..], next.cast[c], next.table);
  }

  lemma RestParts(c: ClientId, x: Cell)
    ensures Rest(c, x)[..2] == [(c, PushLine("1")), (c, BareLine(ADD))]
    ensures Rest(c, x)[2..] == [(c, AccessLine(x, SetOp(x.key))), (c, BareLine(COMMIT))]
    ensures Rest(c, x)[..2] + Rest(c, x)[2..] == Rest(c, x)
  {
  }

  /** Two programs in a transaction each, and a third client on its way to a GET that misses. */
  function RacingLines(a: ClientId, p: ClientId, q: ClientId, x: Cell, w: Cell): Lines {
    [(p, BareLine(BEGIN)), (q, BareLine(BEGIN)), (a, AccessLine(w, GetOp(w.key))),
     (p, AccessLine(x, GetOp(x.key))), (q, AccessLine(x, GetOp(x.key)))]
  }

  /** Both are in their transactions; the table has been unlocked once too often already,
      and will be once more. */
  lemma {:induction false} Races(s: State, t: TableId, a: ClientId, p: ClientId, q: ClientId, x: Cell, w: Cell)
    returns (run: seq<Action>, sc: Scene)
    requires IsStage(s, t, x, w) && a != p && a != q && p != q && IsFree(s, a) && IsFree(s, p) && IsFree(s, q)
    ensures Leads(s, t, run, sc) && sc.asked == RacingLines(a, p, q, x, w)[..3]
    ensures sc.cast.Keys == {a, p, q} && sc.table == s.tables[t]
    ensures sc.cast[a].pc == AutoUnlock(t, Failed(KeyNotFound))
    ensures sc.cast[p] == Respond(Counted(s.clients[p]).(inTx := true), Okay)
    ensures sc.cast[q] == Respond(Counted(s.clients[q]).(inTx := true), Okay)
  {
    sc := Curtain(s, t, map[a := s.clients[a], p := s.clients[p], q := s.clients[q]]);
    run := [];
    run, sc := Begins(s, t, run, sc, p);
    run, sc := Begins(s, t, run, sc, q);
    run, sc := MissesAlone(s, t, run, sc, a, w);
  }

  /** Both have read the number, and both hold the table. */
  lemma {:induction false} Reads(s: State, t: TableId, run: seq<Action>, sc: Scene, a: ClientId, p: ClientId, q: ClientId, x: Cell)
    returns (run': seq<Action>, next: Scene)
    requires IsSet(s, t) && Leads(s, t, run, sc) && IsHere(s, t, x) && x.key in sc.table.store.committed && sc.table.owner == None
    requires sc.cast.Keys == {a, p, q} && a != p && a != q && p != q && sc.cast[a].pc == AutoUnlock(t, Failed(KeyNotFound))
    requires IsReady(sc, t, p) && sc.cast[p].inTx && IsReady(sc, t, q) && sc.cast[q].inTx
    ensures Leads(s, t, run', next)
    ensures next.asked == sc.asked + [(p, AccessLine(x, GetOp(x.key))), (q, AccessLine(x, GetOp(x.key)))]
    ensures next.cast.Keys == {a, p, q} && next.table == sc.table.(owner := next.table.owner)
    ensures next.cast[p] == HasGot(sc.cast[p], t, sc.table.store.committed[x.key])
    ensures next.cast[q] == HasGot(sc.cast[q], t, sc.table.store.committed[x.key])
  {
    run', next := ReadsAndLoses(s, t, run, sc, a, p, x);
    run', next := GetsInside(s, t, run', next, q, x);
  }

  /** One transaction reads, and the second unlock of another client's GET takes the table from it. */
  lemma {:induction false} ReadsAndLoses(s: State, t: TableId, run: seq<Action>, sc: Scene, a: ClientId, p: ClientId, x: Cell)
    returns (run': seq<Action>, next: Scene)
    requires IsSet(s, t) && Leads(s, t, run, sc) && IsHere(s, t, x) && x.key in sc.table.store.committed && sc.table.owner == None
    requires a in sc.cast && a != p && sc.cast[a].pc == AutoUnlock(t, Failed(KeyNotFound)) && IsReady(sc, t, p) && sc.cast[p].inTx
    ensures Leads(s, t, run', next) && next.asked == sc.asked + By(p, AccessLine(x, GetOp(x.key)))
    ensures next.cast == sc.cast[p := HasGot(sc.cast[p], t, sc.table.store.committed[x.key])][a := Respond(sc.cast[a], Failed(KeyNotFound))]
    ensures next.table == sc.table
  {
    run', next := GetsInside(s, t, run, sc, p, x);
    run', next := GivesBack(s, t, run', next, a);
  }

  function HasGot(cl: Client, t: TableId, v: string): Client {
    Respond(Counted(cl).(stack := cl.stack + [v], locked := {t}), Okay)
  }

  /** Two increment programs read the same number, because a third client's second unlock
      has taken the table from the first. Both commit, both are answered OK throughout,
      and the entry is one higher. */
  lemma {:induction false} IncrementIsLost(s: State, t: TableId, a: ClientId, p: ClientId, q: ClientId, x: Cell, w: Cell, v: string)
    returns (run: seq<Action>, sc: Scene)
    requires IsStage(s, t, x, w) && x.key in s.tables[t].store.committed && s.tables[t].store.committed[x.key] == v && CanIncrement(v)
    requires a != p && a != q && p != q && IsFree(s, a) && IsFree(s, p) && IsFree(s, q)
    requires s.clients[p].stack == [] && s.clients[q].stack == []
    ensures Leads(s, t, run, sc) && sc.asked == RacingLines(a, p, q, x, w) + Rest(p, x) + Rest(q, x)
    ensures sc.cast.Keys == {a, p, q}
    ensures sc.cast[p].sent == s.clients[p].sent + [Okay, Okay, Okay, Okay, Okay, Okay]
    ensures sc.cast[q].sent == s.clients[q].sent + [Okay, Okay, Okay, Okay, Okay, Okay]
    ensures x.key in sc.table.store.committed && sc.table.store.committed[x.key] == Incremented(v)
  {
    run, sc := BothRead(s, t, a, p, q, x, w, v);
    var before := sc;
    run, sc := BothIncrement(s, t, run, sc, p, q, x, v);
    SixOkay(s.clients[p].sent);
    SixOkay(s.clients[q].sent);
    LinesJoinUp(RacingLines(a, p, q, x, w), Rest(p, x), Rest(q, x), before.asked, sc.asked);
  }

  lemma SixOkay(sent: seq<Reply>)
    ensures sent + [Okay, Okay] + [Okay, Okay] + [Okay, Okay] == sent + [Okay, Okay, Okay, Okay, Okay, Okay]
  {
  }

  lemma LinesJoinUp(xs: Lines, ys: Lines, zs: Lines, before: Lines, after: Lines)
    requires before == xs && after == before + ys + zs
    ensures after == xs + ys + zs
  {
  }

  lemma {:induction false} BothRead(s: State, t: TableId, a: ClientId, p: ClientId, q: ClientId, x: Cell, w: Cell, v: string)
    returns (run: seq<Action>, sc: Scene)
    requires IsStage(s, t, x, w) && x.key in s.tables[t].store.committed && s.tables[t].store.committed[x.key] == v
    requires a != p && a != q && p != q && IsFree(s, a) && IsFree(s, p) && IsFree(s, q)
    requires s.clients[p].stack == [] && s.clients[q].stack == []
    ensures Leads(s, t, run, sc) && sc.asked == RacingLines(a, p, q, x, w) && sc.cast.Keys == {a, p, q}
    ensures IsReady(sc, t, p) && sc.cast[p].inTx && sc.cast[p].locked == {t} && sc.cast[p].stack == [v]
    ensures IsReady(sc, t, q) && sc.cast[q].inTx && sc.cast[q].locked == {t} && sc.cast[q].stack == [v]
    ensures sc.cast[p].sent == s.clients[p].sent + [Okay, Okay] && sc.cast[q].sent == s.clients[q].sent + [Okay, Okay]
  {
    run, sc := Races(s, t, a, p, q, x, w);
    run, sc := Reads(s, t, run, sc, a, p, q, x);
    assert [] + [v] == [v];
  }

  lemma {:induction false} BothIncrement(s: State, t: TableId, run: seq<Action>, sc: Scene, p: ClientId, q: ClientId, x: Cell, v: string)
    returns (run': seq<Action>, next: Scene)
    requires IsSet(s, t) && Leads(s, t, run, sc) && IsHere(s, t, x) && CanIncrement(v) && p != q
    requires IsReady(sc, t, p) && sc.cast[p].inTx && sc.cast[p].locked == {t} && sc.cast[p].stack == [v]
    requires IsReady(sc, t, q) && sc.cast[q].inTx && sc.cast[q].locked == {t} && sc.cast[q].stack == [v]
    ensures Leads(s, t, run', next) && next.asked == sc.asked + Rest(p, x) + Rest(q, x)
    ensures next.cast.Keys == sc.cast.Keys
    ensures next.cast[p] == Stored(Added(sc.cast[p], v)) && next.cast[q] == Stored(Added(sc.cast[q], v))
    ensures x.key in next.table.store.committed && next.table.store.committed[x.key] == Incremented(v)
  {
    run', next := Increments(s, t, run, sc, p, x, v);
    run', next := Increments(s, t, run', next, q, x, v);
  }

  // ----- from the empty server --------------------------------------------

  /** Three sessions and a table: what brings the server there. */
  function SetupLines(a: ClientId, b: ClientId, c: ClientId, name: string): Lines {
    [(a, LoginLine("u")), (b, LoginLine("u")), (c, LoginLine("u")), (a, CreateLine(name))]
  }

  /** Three sessions that have done nothing but log in and create this table. */
  predicate IsSetUp(s: State, a: ClientId, b: ClientId, c: ClientId, name: string) {
    && IsSet(s, 0) && name in s.registry && s.registry[name] == 0
    && s.tables[0] == TableRecord(name, None, EMPTY)
    && IsFree(s, a) && IsFree(s, b) && IsFree(s, c)
    && s.clients[b] == LOGGED_IN && s.clients[c] == LOGGED_IN
  }

  lemma {:induction false} SetUp(a: ClientId, b: ClientId, c: ClientId, name: string) returns (run: seq<Action>, s: State)
    requires a != b && a != c && b != c && IsIdentifier(name) && |CreateLine(name)| <= MAX_ENCODED_LEN
    ensures Legal(AsWritten, EMPTY_SERVER, run) && RequestsOf(run) == SetupLines(a, b, c, name)
    ensures After(AsWritten, EMPTY_SERVER, run) == s && IsSetUp(s, a, b, c, name)
  {
    OneArgumentLine(LOGIN, "u");
    run := ThreeArrive(a, b, c, "u");
    run := TableIsCreated(EMPTY_SERVER, run, a, name, 0);
    s := After(AsWritten, EMPTY_SERVER, run);
  }

  /** What follows the setup. */
  lemma {:induction false} PlaysOn(run: seq<Action>, s: State, t: TableId, more: seq<Action>, sc: Scene) returns (run': seq<Action>)
    requires Legal(AsWritten, EMPTY_SERVER, run) && After(AsWritten, EMPTY_SERVER, run) == s && Leads(s, t, more, sc)
    ensures Legal(AsWritten, EMPTY_SERVER, run') && After(AsWritten, EMPTY_SERVER, run') == Played(s, t, sc)
    ensures RequestsOf(run') == RequestsOf(run) + sc.asked
  {
    Append(AsWritten, EMPTY_SERVER, run, more);
    RequestsJoin(run, more);
    run' := run + more;
  }

  /** Cells of one new table, and the sessions that will work on it. */
  predicate IsPlot(a: ClientId, b: ClientId, c: ClientId, x: Cell, y: Cell, w: Cell) {
    && a != b && a != c && b != c
    && IsCell(x) && IsCell(y) && IsCell(w) && y.table == x.table && w.table == x.table
    && x.key != y.key && x.key != w.key && |CreateLine(x.table)| <= MAX_ENCODED_LEN
  }

  /** Abort atomicity fails for the code as written. On this run nobody asks for a
      COMMIT, and the only SET of `x` is in a transaction that is answered FAILED and
      rolled back; yet `x` is committed in the end, with that transaction's value. */
  lemma {:induction false} AbortsCanCommit(a: ClientId, b: ClientId, c: ClientId, x: Cell, y: Cell, w: Cell, v: string, u: string)
    returns (run: seq<Action>)
    requires IsPlot(a, b, c, x, y, w) && IsValue(v) && IsValue(u)
    ensures Legal(AsWritten, EMPTY_SERVER, run)
    ensures RequestsOf(run) ==
              SetupLines(a, b, c, x.table) + (FailingLines(a, x, w, v) + [(b, PushLine(u)), (b, AccessLine(y, SetOp(y.key)))])
    ensures var z := After(AsWritten, EMPTY_SERVER, run);
            && a in z.clients && z.clients[a].pc == Idle && !z.clients[a].inTx
            && z.clients[a].sent != [] && z.clients[a].sent[|z.clients[a].sent| - 1] == Failed(KeyNotFound)
            && 0 in z.tables && x.key in z.tables[0].store.committed && z.tables[0].store.committed[x.key] == v
  {
    var s, sc;
    run, s, sc := AbortIsPlayed(a, b, c, x, y, w, v, u);
    OnStage(s, 0, sc, a);
  }

  lemma {:induction false} AbortIsPlayed(a: ClientId, b: ClientId, c: ClientId, x: Cell, y: Cell, w: Cell, v: string, u: string)
    returns (run: seq<Action>, s: State, sc: Scene)
    requires IsPlot(a, b, c, x, y, w) && IsValue(v) && IsValue(u)
    ensures Legal(AsWritten, EMPTY_SERVER, run) && After(AsWritten, EMPTY_SERVER, run) == Played(s, 0, sc)
    ensures RequestsOf(run) ==
              SetupLines(a, b, c, x.table) + (FailingLines(a, x, w, v) + [(b, PushLine(u)), (b, AccessLine(y, SetOp(y.key)))])
    ensures a in sc.cast && sc.cast[a].pc == Idle && !sc.cast[a].inTx
    ensures sc.cast[a].sent != [] && sc.cast[a].sent[|sc.cast[a].sent| - 1] == Failed(KeyNotFound)
    ensures x.key in sc.table.store.committed && sc.table.store.committed[x.key] == v
  {
    var start, more;
    start, s := SetUp(a, b, c, x.table);
    more, sc := AbortedSetIsCommitted(s, 0, a, b, x, y, w, v, u);
    run := PlaysOn(start, s, 0, more, sc);
  }

  lemma OnStage(s: State, t: TableId, sc: Scene, c: ClientId)
    requires c in sc.cast
    ensures var z := Played(s, t, sc); c in z.clients && z.clients[c] == sc.cast[c] && t in z.tables && z.tables[t] == sc.table
  {
  }

  /** And an autocommit SET can be answered OK for nothing: on this run `y` is SET once,
      outside transactions, with OK for an answer, and is not there in the end. */
  lemma {:induction false} AbortsCanWipe(a: ClientId, b: ClientId, c: ClientId, x: Cell, y: Cell, w: Cell, v: string, u: string)
    returns (run: seq<Action>)
    requires IsPlot(a, b, c, x, y, w) && IsValue(v) && IsValue(u)
    ensures Legal(AsWritten, EMPTY_SERVER, run)
    ensures RequestsOf(run) ==
              SetupLines(a, b, c, x.table) + (FailingLines(a, x, w, v) + [(b, PushLine(u)), (b, AccessLine(y, SetOp(y.key)))])
    ensures var z := After(AsWritten, EMPTY_SERVER, run);
            && b in z.clients && z.clients[b].pc == Idle && z.clients[b].sent == [Okay, Okay, Okay]
            && 0 in z.tables && !HasKey(z.tables[0].store, y.key)
  {
    var start, s := SetUp(a, b, c, x.table);
    var more, sc := AnsweredSetIsWiped(s, 0, a, b, x, y, w, v, u);
    run := PlaysOn(start, s, 0, more, sc);
  }

  /** Increments can be lost. On this run two `incr_value -t` programs run to their
      COMMIT, are answered OK seven times each, and a third client asks for a key that is
      missing; `x` is one higher in the end, not two. */
  lemma {:induction false} IncrementsCanBeLost(a: ClientId, p: ClientId, q: ClientId, x: Cell, w: Cell, v: string)
    returns (run: seq<Action>)
    requires IsPlot(a, p, q, x, w, w) && IsValue(v) && CanIncrement(v)
    ensures Legal(AsWritten, EMPTY_SERVER, run)
    ensures RequestsOf(run) ==
              SetupLines(a, p, q, x.table) + [(a, PushLine(v)), (a, AccessLine(x, SetOp(x.key)))] +
              (RacingLines(a, p, q, x, w) + Rest(p, x) + Rest(q, x))
    ensures var z := After(AsWritten, EMPTY_SERVER, run);
            && p in z.clients && z.clients[p].sent == [Okay, Okay, Okay, Okay, Okay, Okay, Okay]
            && q in z.clients && z.clients[q].sent == [Okay, Okay, Okay, Okay, Okay, Okay, Okay]
            && 0 in z.tables && x.key in z.tables[0].store.committed && z.tables[0].store.committed[x.key] == Incremented(v)
  {
    var start, s := NumberStored(a, p, q, x, w, v);
    var more, sc := IncrementIsLost(s, 0, a, p, q, x, w, v);
    run := PlaysOn(start, s, 0, more, sc);
    SevenOkay(s.clients[p].sent);
    SevenOkay(s.clients[q].sent);
  }

  lemma SevenOkay(sent: seq<Reply>)
    requires sent == [Okay]
    ensures sent + [Okay, Okay, Okay, Okay, Okay, Okay] == [Okay, Okay, Okay, Okay, Okay, Okay, Okay]
  {
  }

  lemma {:induction false} NumberStored(a: ClientId, p: ClientId, q: ClientId, x: Cell, w: Cell, v: string)
    returns (run: seq<Action>, s: State)
    requires IsPlot(a, p, q, x, w, w) && IsValue(v)
    ensures Legal(AsWritten, EMPTY_SERVER, run) && After(AsWritten, EMPTY_SERVER, run) == s
    ensures RequestsOf(run) == SetupLines(a, p, q, x.table) + [(a, PushLine(v)), (a, AccessLine(x, SetOp(x.key)))]
    ensures IsStage(s, 0, x, w) && x.key in s.tables[0].store.committed && s.tables[0].store.committed[x.key] == v
    ensures IsFree(s, a) && IsFree(s, p) && IsFree(s, q) && s.clients[p] == LOGGED_IN && s.clients[q] == LOGGED_IN
  {
    var start, s0 := SetUp(a, p, q, x.table);
    var more, sc := StoresFirst(s0, a, p, q, x, w, v);
    run := PlaysOn(start, s0, 0, more, sc);
    s := Played(s0, 0, sc);
  }

  /** The number to be incremented. */
  lemma {:induction false} StoresFirst(s: State, a: ClientId, p: ClientId, q: ClientId, x: Cell, w: Cell, v: string)
    returns (run: seq<Action>, sc: Scene)
    requires IsPlot(a, p, q, x, w, w) && IsValue(v) && IsSetUp(s, a, p, q, x.table)
    ensures Leads(s, 0, run, sc) && sc.asked == [(a, PushLine(v)), (a, AccessLine(x, SetOp(x.key)))]
    ensures var s1 := Played(s, 0, sc);
            && IsStage(s1, 0, x, w) && x.key in s1.tables[0].store.committed && s1.tables[0].store.committed[x.key] == v
            && IsFree(s1, a) && IsFree(s1, p) && IsFree(s1, q)
            && s1.clients[p] == LOGGED_IN && s1.clients[q] == LOGGED_IN
  {
    sc := Curtain(s, 0, map[a := s.clients[a]]);
    run := [];
    run, sc := Pushes(s, 0, run, sc, a, v);
    run, sc := SetsAlone(s, 0, run, sc, a, x);
    assert [v][..0] == [];
  }

  /** Nor is there any serial order to blame: wherever two increments are committed and
      nobody else writes the entry, a serial order makes it two higher. */
  lemma {:induction false} NoSerialOrderLosesIncrements(x: Cell, who: set<ClientId>, db: Db, log: seq<Unit>, n: int)
    requires LogOk(x, who, log) && ReplayAgrees(db, log) && Holds(x, db, n) && Commits(who, log) == 2
    ensures !Holds(x, Replay(db, log), n + 1)
  {
    ReplayCounts(x, who, db, log, n);
  }
}
