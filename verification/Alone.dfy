/** One thread running undisturbed from the request it has taken to its reply: what
    the steps of the state machine add up to when no other client moves. */
module Alone {
  import opened Engine
  import opened Messages
  import opened Runs
  import opened StackMachine
  import opened Tables
  import opened Wrappers

  // ----- up to the reply or the start of a release ------------------------

  /** The thread is inside a request, and not in a release. */
  predicate IsUnderway(pc: Pc) {
    pc != Idle && pc != Closed && !pc.Releasing?
  }

  function StepsLeft(pc: Pc): nat {
    match pc
    case AutoWait(_, _) => 6
    case AutoRun(_, _) => 5
    case TxAcquire(_, _) => 6
    case TxRun(_, _) => 5
    case AutoCommit(_) => 4
    case Stray(_) => 4
    case AutoUnlock(_, _) => 3
    case CreateWait(_) => 6
    case CreateFind(_) => 5
    case CreateInsert(_) => 4
    case CreateUnlock(_) => 3
    case _ => 0
  }

  lemma ContinueShrinks(v: Variant, cl: Client, registry: map<string, TableId>, store: Store, owner: Option<ClientId>, pick: nat)
    requires IsUnderway(cl.pc)
    ensures StepsLeft(Continue(v, cl, registry, store, owner, pick).0.pc) < StepsLeft(cl.pc)
  {
  }

  lemma GoShrinks(v: Variant, s: State, c: ClientId, pick: nat)
    requires Enabled(s, Act(c, Go(pick))) && IsUnderway(s.clients[c].pc)
    ensures var z := Step(v, s, Act(c, Go(pick)));
            c in z.clients && StepsLeft(z.clients[c].pc) < StepsLeft(s.clients[c].pc)
  {
    var cl := s.clients[c];
    ContinueShrinks(v, cl, s.registry, StoreAt(s, Subject(cl.pc)), OwnerAt(s, Subject(cl.pc)), pick);
  }

  /** Thread `c` goes on alone until it has replied, a release begins, or it has to wait. */
  function Drive(v: Variant, s: State, c: ClientId, pick: nat): State
    decreases if c in s.clients then StepsLeft(s.clients[c].pc) else 0
  {
    if Enabled(s, Act(c, Go(pick))) && IsUnderway(s.clients[c].pc) then
      GoShrinks(v, s, c, pick);
      Drive(v, Step(v, s, Act(c, Go(pick))), c, pick)
    else s
  }

  /** All actions are this client's own steps. */
  predicate IsSolo(run: seq<Action>, c: ClientId) {
    forall i | 0 <= i < |run| :: run[i].c == c && run[i].input.Go?
  }

  lemma {:induction false} SoloAsksNothing(run: seq<Action>, c: ClientId)
    requires IsSolo(run, c)
    ensures RequestsOf(run) == []
  {
    if run != [] {
      SoloAsksNothing(run[..|run| - 1], c);
    }
  }

  lemma {:induction false} Prepend(v: Variant, s: State, a: Action, more: seq<Action>)
    requires Enabled(s, a) && Legal(v, Step(v, s, a), more)
    ensures Legal(v, s, [a] + more) && After(v, s, [a] + more) == After(v, Step(v, s, a), more)
  {
    Extend(v, s, [], a);
    assert [] + [a] == [a];
    Append(v, s, [a], more);
  }

  lemma {:induction false} DriveIsRun(v: Variant, s: State, c: ClientId, pick: nat) returns (run: seq<Action>)
    ensures IsSolo(run, c) && Legal(v, s, run) && After(v, s, run) == Drive(v, s, c, pick)
    decreases if c in s.clients then StepsLeft(s.clients[c].pc) else 0
  {
    run := [];
    var a := Act(c, Go(pick));
    if Enabled(s, a) && IsUnderway(s.clients[c].pc) {
      GoShrinks(v, s, c, pick);
      var more := DriveIsRun(v, Step(v, s, a), c, pick);
      Prepend(v, s, a, more);
      run := [a] + more;
    }
  }

  // ----- GET and SET, on the client and its table -------------------------

  /** All that a GET or SET under way looks at or changes. */
  datatype Spot = Spot(cl: Client, table: TableRecord)

  function Touched(c: ClientId, tb: TableRecord, e: Effect): TableRecord {
    match e
    case Locks(_) => tb.(owner := Some(c))
    case Unlocks(_) => tb.(owner := None)
    case Edits(_, ed) => tb.(store := Edited(tb.store, ed))
    case _ => tb
  }

  function Next(v: Variant, c: ClientId, p: Spot): Spot {
    var (cl, e) := Continue(v, p.cl, map[], p.table.store, p.table.owner, 0);
    Spot(cl, Touched(c, p.table, e))
  }

  predicate IsAccess(pc: Pc) {
    pc.AutoWait? || pc.AutoRun? || pc.AutoCommit? || pc.AutoUnlock? || pc.TxAcquire? || pc.TxRun? || pc.Stray?
  }

  function Solo(v: Variant, c: ClientId, p: Spot): Spot
    decreases StepsLeft(p.cl.pc)
  {
    if IsAccess(p.cl.pc) && !(p.cl.pc.AutoWait? && p.table.owner.Some?) then
      ContinueShrinks(v, p.cl, map[], p.table.store, p.table.owner, 0);
      Solo(v, c, Next(v, c, p))
    else p
  }

  /** The state with another client and another table in their places. */
  function With(s: State, c: ClientId, t: TableId, p: Spot): State {
    s.(clients := s.clients[c := p.cl], tables := s.tables[t := p.table])
  }

  lemma AccessGoesOn(v: Variant, cl: Client, registry: map<string, TableId>, store: Store, owner: Option<ClientId>, t: TableId, pick: nat)
    requires IsAccess(cl.pc) && Subject(cl.pc) == Some(t)
    ensures Continue(v, cl, registry, store, owner, pick) == Continue(v, cl, map[], store, owner, 0)
    ensures var (cl', e) := Continue(v, cl, map[], store, owner, 0);
            && (IsAccess(cl'.pc) ==> Subject(cl'.pc) == Some(t))
            && (e == Nothing || e == Locks(t) || e == Unlocks(t) || (e.Edits? && e.t == t))
            && (IsUnderway(cl'.pc) ==> IsAccess(cl'.pc))
  {
  }

  lemma StepIsNext(v: Variant, s: State, c: ClientId, t: TableId, pick: nat)
    requires !s.crashed && c in s.clients && t in s.tables
    requires IsAccess(s.clients[c].pc) && Subject(s.clients[c].pc) == Some(t)
    requires !(s.clients[c].pc.AutoWait? && s.tables[t].owner.Some?)
    ensures Enabled(s, Act(c, Go(pick)))
    ensures Step(v, s, Act(c, Go(pick))) == With(s, c, t, Next(v, c, Spot(s.clients[c], s.tables[t])))
  {
    AccessGoesOn(v, s.clients[c], s.registry, s.tables[t].store, s.tables[t].owner, t, pick);
    TouchedApplies(s, c, t, Move(v, s, Act(c, Go(pick))));
  }

  lemma TouchedApplies(s: State, c: ClientId, t: TableId, m: (Client, Effect))
    requires t in s.tables
    requires m.1 == Nothing || m.1 == Locks(t) || m.1 == Unlocks(t) || (m.1.Edits? && m.1.t == t)
    ensures Apply(s, c, m.0, m.1) == With(s, c, t, Spot(m.0, Touched(c, s.tables[t], m.1)))
  {
    if m.1 == Nothing {
      assert s.tables[t := s.tables[t]] == s.tables;
    }
  }

  lemma WithWith(s: State, c: ClientId, t: TableId, p: Spot, q: Spot)
    ensures With(With(s, c, t, p), c, t, q) == With(s, c, t, q)
  {
    assert s.clients[c := p.cl][c := q.cl] == s.clients[c := q.cl];
    assert s.tables[t := p.table][t := q.table] == s.tables[t := q.table];
  }

  /** On its own, a GET or SET does to the state what it does to its client and table. */
  lemma {:induction false} DriveIsSolo(v: Variant, s: State, c: ClientId, t: TableId, pick: nat)
    requires !s.crashed && c in s.clients && t in s.tables
    requires IsAccess(s.clients[c].pc) ==> Subject(s.clients[c].pc) == Some(t)
    requires IsUnderway(s.clients[c].pc) ==> IsAccess(s.clients[c].pc)
    ensures Drive(v, s, c, pick) == With(s, c, t, Solo(v, c, Spot(s.clients[c], s.tables[t])))
    decreases StepsLeft(s.clients[c].pc)
  {
    var cl, tb := s.clients[c], s.tables[t];
    assert s.clients[c := cl] == s.clients && s.tables[t := tb] == s.tables;
    if IsAccess(cl.pc) && !(cl.pc.AutoWait? && tb.owner.Some?) {
      StepIsNext(v, s, c, t, pick);
      GoShrinks(v, s, c, pick);
      AccessGoesOn(v, cl, s.registry, tb.store, tb.owner, t, pick);
      var q := Next(v, c, Spot(cl, tb));
      var z := With(s, c, t, q);
      assert z.clients[c] == q.cl && z.tables[t] == q.table;
      DriveIsSolo(v, z, c, t, pick);
      WithWith(s, c, t, q, Solo(v, c, q));
    }
  }

  // What the steps of a GET or SET add up to.

  lemma SoloStops(v: Variant, c: ClientId, p: Spot)
    requires !IsAccess(p.cl.pc)
    ensures Solo(v, c, p) == p
  {
  }

  lemma SoloGoes(v: Variant, c: ClientId, p: Spot, q: Spot)
    requires IsAccess(p.cl.pc) && !(p.cl.pc.AutoWait? && p.table.owner.Some?) && q == Next(v, c, p)
    ensures Solo(v, c, p) == Solo(v, c, q)
  {
  }

  /** SET outside transactions: the value is committed, the table free again. */
  lemma SoloAutoSet(v: Variant, c: ClientId, p: Spot, k: string, t: TableId)
    requires p.cl.pc == AutoWait(SetOp(k), t) && p.table.owner == None
    ensures Solo(v, c, p) ==
              Spot(Respond(p.cl.(stack := Popped(p.cl.stack)), Okay),
                   p.table.(store := Commit(Put(p.table.store, k, TopOf(p.cl.stack)))))
  {
    var put := Put(p.table.store, k, TopOf(p.cl.stack));
    var p1 := Spot(p.cl.(pc := AutoRun(SetOp(k), t)), p.table.(owner := Some(c)));
    var p2 := Spot(p.cl.(pc := AutoCommit(t), stack := Popped(p.cl.stack)), p1.table.(store := put));
    var p3 := Spot(p2.cl.(pc := AutoUnlock(t, Okay)), p2.table.(store := Commit(put)));
    var p4 := Spot(Respond(p3.cl, Okay), p3.table.(owner := None));
    SoloGoes(v, c, p, p1);
    SoloGoes(v, c, p1, p2);
    SoloGoes(v, c, p2, p3);
    SoloGoes(v, c, p3, p4);
    SoloStops(v, c, p4);
  }

  /** GET outside transactions, of a key that is there. */
  lemma SoloAutoHit(v: Variant, c: ClientId, p: Spot, k: string, t: TableId)
    requires p.cl.pc == AutoWait(GetOp(k), t) && p.table.owner == None && HasKey(p.table.store, k)
    ensures Solo(v, c, p) == Spot(Respond(p.cl.(stack := p.cl.stack + [Fetch(p.table.store, k).value]), Okay), p.table)
  {
    var p1 := Spot(p.cl.(pc := AutoRun(GetOp(k), t)), p.table.(owner := Some(c)));
    var p2 := Spot(p1.cl.(pc := AutoUnlock(t, Okay), stack := p.cl.stack + [Fetch(p.table.store, k).value]), p1.table);
    var p3 := Spot(Respond(p2.cl, Okay), p2.table.(owner := None));
    SoloGoes(v, c, p, p1);
    SoloGoes(v, c, p1, p2);
    SoloGoes(v, c, p2, p3);
    SoloStops(v, c, p3);
  }

  /** GET outside transactions, of a key that is missing: alone, the second unlock
      makes no difference. */
  lemma SoloAutoMiss(v: Variant, c: ClientId, p: Spot, k: string, t: TableId)
    requires p.cl.pc == AutoWait(GetOp(k), t) && p.table.owner == None && !HasKey(p.table.store, k)
    requires !p.cl.inTx
    ensures Solo(v, c, p) == Spot(Respond(p.cl, Failed(KeyNotFound)), p.table)
  {
    var p1 := Spot(p.cl.(pc := AutoRun(GetOp(k), t)), p.table.(owner := Some(c)));
    var p2 := Spot(p1.cl.(pc := Stray(t)), p1.table);
    var p3 := Spot(p1.cl.(pc := AutoUnlock(t, Failed(KeyNotFound))), if v == AsWritten then p.table else p1.table);
    var p4 := Spot(Respond(p3.cl, Failed(KeyNotFound)), p.table);
    SoloGoes(v, c, p, p1);
    if v == AsWritten {
      SoloGoes(v, c, p1, p2);
      SoloGoes(v, c, p2, p3);
    } else {
      SoloGoes(v, c, p1, p3);
    }
    SoloGoes(v, c, p3, p4);
    SoloStops(v, c, p4);
  }

  /** A transaction that cannot get its table fails. */
  lemma SoloBusy(v: Variant, c: ClientId, p: Spot, op: TableOp, t: TableId)
    requires p.cl.pc == TxAcquire(op, t) && t !in p.cl.locked && p.table.owner.Some? && p.cl.inTx
    ensures Solo(v, c, p) == Spot(Throw(p.cl, TableBusy), p.table)
  {
    SoloGoes(v, c, p, Spot(Throw(p.cl, TableBusy), p.table));
    SoloStops(v, c, Spot(Throw(p.cl, TableBusy), p.table));
  }

  /** A transaction gets its table, or has it already. */
  function Entered(c: ClientId, p: Spot, t: TableId): Spot {
    if t in p.cl.locked then p
    else Spot(p.cl.(locked := p.cl.locked + {t}), p.table.(owner := Some(c)))
  }

  lemma SoloTxSet(v: Variant, c: ClientId, p: Spot, k: string, t: TableId)
    requires p.cl.pc == TxAcquire(SetOp(k), t) && (t in p.cl.locked || p.table.owner == None)
    ensures var q := Entered(c, p, t);
            Solo(v, c, p) ==
              Spot(Respond(q.cl.(stack := Popped(p.cl.stack)), Okay),
                   q.table.(store := Put(p.table.store, k, TopOf(p.cl.stack))))
  {
    var q := Entered(c, p, t);
    var p1 := Spot(q.cl.(pc := TxRun(SetOp(k), t)), q.table);
    var p2 := Spot(Respond(q.cl.(stack := Popped(p.cl.stack)), Okay),
                   q.table.(store := Put(p.table.store, k, TopOf(p.cl.stack))));
    SoloGoes(v, c, p, p1);
    SoloGoes(v, c, p1, p2);
    SoloStops(v, c, p2);
  }

  lemma SoloTxHit(v: Variant, c: ClientId, p: Spot, k: string, t: TableId)
    requires p.cl.pc == TxAcquire(GetOp(k), t) && (t in p.cl.locked || p.table.owner == None)
    requires HasKey(p.table.store, k)
    ensures var q := Entered(c, p, t);
            Solo(v, c, p) == Spot(Respond(q.cl.(stack := p.cl.stack + [Fetch(p.table.store, k).value]), Okay), q.table)
  {
    var q := Entered(c, p, t);
    var p1 := Spot(q.cl.(pc := TxRun(GetOp(k), t)), q.table);
    var p2 := Spot(Respond(q.cl.(stack := p.cl.stack + [Fetch(p.table.store, k).value]), Okay), q.table);
    SoloGoes(v, c, p, p1);
    SoloGoes(v, c, p1, p2);
    SoloStops(v, c, p2);
  }

  /** In the code as written, the table is free while still in `locked_tables`. */
  lemma SoloTxMiss(v: Variant, c: ClientId, p: Spot, k: string, t: TableId)
    requires p.cl.pc == TxAcquire(GetOp(k), t) && (t in p.cl.locked || p.table.owner == None)
    requires !HasKey(p.table.store, k) && p.cl.inTx
    ensures var q := Entered(c, p, t);
            Solo(v, c, p) == Spot(Throw(q.cl, KeyNotFound), if v == AsWritten then q.table.(owner := None) else q.table)
  {
    var q := Entered(c, p, t);
    var p1 := Spot(q.cl.(pc := TxRun(GetOp(k), t)), q.table);
    var p2 := Spot(q.cl.(pc := Stray(t)), q.table);
    var p3 := Spot(Throw(q.cl, KeyNotFound), if v == AsWritten then q.table.(owner := None) else q.table);
    SoloGoes(v, c, p, p1);
    if v == AsWritten {
      SoloGoes(v, c, p1, p2);
      SoloGoes(v, c, p2, p3);
    } else {
      SoloGoes(v, c, p1, p3);
    }
    SoloStops(v, c, p3);
  }

  lemma {:induction false} SoloKeepsName(v: Variant, c: ClientId, p: Spot)
    ensures Solo(v, c, p).table.name == p.table.name
    decreases StepsLeft(p.cl.pc)
  {
    if IsAccess(p.cl.pc) && !(p.cl.pc.AutoWait? && p.table.owner.Some?) {
      ContinueShrinks(v, p.cl, map[], p.table.store, p.table.owner, 0);
      SoloKeepsName(v, c, Next(v, c, p));
    }
  }

  /** A thread that is not made to wait gets through. */
  lemma {:induction false} SoloIsDone(v: Variant, c: ClientId, p: Spot)
    requires IsUnderway(p.cl.pc) ==> IsAccess(p.cl.pc)
    requires p.cl.pc.AutoWait? ==> p.table.owner == None
    ensures !IsUnderway(Solo(v, c, p).cl.pc)
    decreases StepsLeft(p.cl.pc)
  {
    if IsAccess(p.cl.pc) {
      ContinueShrinks(v, p.cl, map[], p.table.store, p.table.owner, 0);
      AccessGoesOn(v, p.cl, map[], p.table.store, p.table.owner, Subject(p.cl.pc).value, 0);
      SoloIsDone(v, c, Next(v, c, p));
    }
  }

  // ----- CREATE -----------------------------------------------------------

  lemma DriveGoes(v: Variant, s: State, c: ClientId, pick: nat, z: State)
    requires Enabled(s, Act(c, Go(pick))) && IsUnderway(s.clients[c].pc) && Step(v, s, Act(c, Go(pick))) == z
    ensures Drive(v, s, c, pick) == Drive(v, z, c, pick)
  {
  }

  lemma DriveStops(v: Variant, s: State, c: ClientId, pick: nat)
    requires c in s.clients && !IsUnderway(s.clients[c].pc)
    ensures Drive(v, s, c, pick) == s
  {
  }

  function WithPc(s: State, c: ClientId, pc: Pc): State
    requires c in s.clients
  {
    s.(clients := s.clients[c := s.clients[c].(pc := pc)])
  }

  /** The server mutex is taken and the name looked up. */
  lemma DriveCreateFind(v: Variant, s: State, c: ClientId, n: string, id: TableId)
    requires !s.crashed && c in s.clients && s.clients[c].pc == CreateWait(n) && s.server == None
    ensures Drive(v, s, c, id) ==
              Drive(v, WithPc(s, c, if n in s.registry then CreateUnlock(true) else CreateInsert(n)).(server := Some(c)), c, id)
  {
    var s1 := WithPc(s, c, CreateFind(n)).(server := Some(c));
    var s2 := WithPc(s, c, if n in s.registry then CreateUnlock(true) else CreateInsert(n)).(server := Some(c));
    assert s1.clients[c := s2.clients[c]] == s2.clients;
    DriveGoes(v, s, c, id, s1);
    DriveGoes(v, s1, c, id, s2);
  }

  /** The server mutex is given back. */
  lemma DriveCreateUnlock(v: Variant, s: State, c: ClientId, failed: bool, id: TableId)
    requires !s.crashed && c in s.clients && s.clients[c].pc == CreateUnlock(failed)
    ensures var cl := s.clients[c];
            Drive(v, s, c, id) ==
              s.(clients := s.clients[c := if failed then Throw(cl, TableExists) else cl.(pc := Idle)], server := None)
  {
    var cl := s.clients[c];
    var z := s.(clients := s.clients[c := if failed then Throw(cl, TableExists) else cl.(pc := Idle)], server := None);
    DriveGoes(v, s, c, id, z);
    DriveStops(v, z, c, id);
  }

  lemma DriveCreateKnown(v: Variant, s: State, c: ClientId, n: string, id: TableId)
    requires !s.crashed && c in s.clients && s.clients[c].pc == CreateWait(n) && s.server == None
    requires n in s.registry
    ensures Drive(v, s, c, id) == s.(clients := s.clients[c := Throw(s.clients[c], TableExists)])
  {
    var s2 := WithPc(s, c, CreateUnlock(true)).(server := Some(c));
    DriveCreateFind(v, s, c, n, id);
    DriveCreateUnlock(v, s2, c, true, id);
    var z := Throw(s.clients[c], TableExists);
    assert s2.clients[c := z] == s.clients[c := z];
  }

  lemma DriveCreateInsert(v: Variant, s: State, c: ClientId, n: string, id: TableId)
    requires !s.crashed && c in s.clients && s.clients[c].pc == CreateInsert(n) && id !in s.tables
    ensures var cl := s.clients[c];
            Drive(v, s, c, id) ==
              Drive(v, s.(clients := s.clients[c := Respond(cl, Okay).(pc := CreateUnlock(false))],
                          registry := s.registry[n := id], tables := s.tables[id := TableRecord(n, None, EMPTY)]), c, id)
  {
    var z := s.(clients := s.clients[c := Respond(s.clients[c], Okay).(pc := CreateUnlock(false))],
                registry := s.registry[n := id], tables := s.tables[id := TableRecord(n, None, EMPTY)]);
    DriveGoes(v, s, c, id, z);
  }

  lemma DriveCreateNew(v: Variant, s: State, c: ClientId, n: string, id: TableId)
    requires !s.crashed && c in s.clients && s.clients[c].pc == CreateWait(n) && s.server == None
    requires n !in s.registry && id !in s.tables
    ensures Drive(v, s, c, id) ==
              s.(clients := s.clients[c := Respond(s.clients[c], Okay)], registry := s.registry[n := id],
                 tables := s.tables[id := TableRecord(n, None, EMPTY)])
  {
    var cl, cl3 := s.clients[c], Respond(s.clients[c], Okay).(pc := CreateUnlock(false));
    var s2 := WithPc(s, c, CreateInsert(n)).(server := Some(c));
    var s3 := s2.(clients := s2.clients[c := cl3],
                  registry := s.registry[n := id], tables := s.tables[id := TableRecord(n, None, EMPTY)]);
    DriveCreateFind(v, s, c, n, id);
    DriveCreateInsert(v, s2, c, n, id);
    DriveCreateUnlock(v, s3, c, false, id);
    assert s3.clients[c := Respond(cl, Okay)] == s.clients[c := Respond(cl, Okay)];
  }

  // ----- COMMIT and abort -------------------------------------------------

  function ReleasedTable(commit: bool, tb: TableRecord): TableRecord {
    tb.(owner := None, store := if commit then Commit(tb.store) else Rollback(tb.store))
  }

  /** The state once client `c` is through with its release, all by itself. */
  function Released(s: State, c: ClientId): State
    requires c in s.clients && s.clients[c].pc.Releasing?
  {
    var cl := s.clients[c];
    s.(clients := s.clients[c := Finish(cl, cl.pc.ending)],
       tables := map t | t in s.tables :: if t in cl.pc.todo then ReleasedTable(cl.pc.commit, s.tables[t]) else s.tables[t])
  }

  function Ended(s: State, c: ClientId): State {
    if c in s.clients && s.clients[c].pc.Releasing? then Released(s, c) else s
  }

  predicate CanRelease(s: State, c: ClientId) {
    && c in s.clients && s.clients[c].pc.Releasing? && s.clients[c].pc.stage == None
    && s.clients[c].pc.todo <= s.tables.Keys
  }

  /** The release of one table. */
  function OneReleased(s: State, c: ClientId, t: TableId): State
    requires CanRelease(s, c) && t in s.clients[c].pc.todo
  {
    var cl := s.clients[c];
    s.(clients := s.clients[c := cl.(pc := Releasing(cl.pc.commit, cl.pc.todo - {t}, None, cl.pc.ending))],
       tables := s.tables[t := ReleasedTable(cl.pc.commit, s.tables[t])])
  }

  /** Half way: committed or rolled back, but not unlocked yet. */
  function OneEdited(s: State, c: ClientId, t: TableId): State
    requires CanRelease(s, c) && t in s.clients[c].pc.todo
  {
    var cl := s.clients[c];
    s.(clients := s.clients[c := cl.(pc := Releasing(cl.pc.commit, cl.pc.todo, Some(t), cl.pc.ending))],
       tables := s.tables[t := ReleasedTable(cl.pc.commit, s.tables[t]).(owner := s.tables[t].owner)])
  }

  lemma OneEditedIsStep(v: Variant, s: State, c: ClientId, t: TableId)
    requires !s.crashed && CanRelease(s, c) && t in s.clients[c].pc.todo
    ensures Enabled(s, Act(c, Go(t))) && Step(v, s, Act(c, Go(t))) == OneEdited(s, c, t)
  {
  }

  lemma OneUnlockedIsStep(v: Variant, s: State, c: ClientId, t: TableId, pick: nat)
    requires !s.crashed && c in s.clients && t in s.tables
    requires s.clients[c].pc.Releasing? && s.clients[c].pc.stage == Some(t)
    ensures Enabled(s, Act(c, Go(pick)))
    ensures var cl := s.clients[c];
            Step(v, s, Act(c, Go(pick))) ==
              s.(clients := s.clients[c := cl.(pc := Releasing(cl.pc.commit, cl.pc.todo - {t}, None, cl.pc.ending))],
                 tables := s.tables[t := s.tables[t].(owner := None)])
  {
  }

  lemma OneReleasedIsRun(v: Variant, s: State, c: ClientId, t: TableId)
    requires !s.crashed && CanRelease(s, c) && t in s.clients[c].pc.todo
    ensures var a := Act(c, Go(t)); Enabled(s, a) && Enabled(Step(v, s, a), a)
    ensures var a := Act(c, Go(t)); Step(v, Step(v, s, a), a) == OneReleased(s, c, t)
  {
    var s1, z := OneEdited(s, c, t), OneReleased(s, c, t);
    OneEditedIsStep(v, s, c, t);
    OneUnlockedIsStep(v, s1, c, t, t);
    assert s1.clients[c := z.clients[c]] == z.clients;
    assert s1.tables[t := z.tables[t]] == z.tables;
  }

  lemma ReleasedInTurn(s: State, c: ClientId, t: TableId)
    requires CanRelease(s, c) && t in s.clients[c].pc.todo
    ensures Released(OneReleased(s, c, t), c) == Released(s, c)
  {
    var z := OneReleased(s, c, t);
    assert z.clients[c := Finish(z.clients[c], z.clients[c].pc.ending)] == Released(s, c).clients;
    assert Released(z, c).tables == Released(s, c).tables;
  }

  lemma OneLessToRelease(s: State, c: ClientId, t: TableId)
    requires !s.crashed && CanRelease(s, c) && t in s.clients[c].pc.todo
    ensures var z := OneReleased(s, c, t);
            !z.crashed && CanRelease(z, c) && |z.clients[c].pc.todo| < |s.clients[c].pc.todo|
  {
  }

  /** In whatever order the tables come up. */
  lemma {:induction false} ReleasedIsRun(v: Variant, s: State, c: ClientId) returns (run: seq<Action>)
    requires !s.crashed && CanRelease(s, c)
    ensures IsSolo(run, c) && Legal(v, s, run) && After(v, s, run) == Released(s, c)
    decreases |s.clients[c].pc.todo|
  {
    if s.clients[c].pc.todo == {} {
      LastOfRelease(v, s, c);
      Extend(v, s, [], Act(c, Go(0)));
      run := [] + [Act(c, Go(0))];
    } else {
      var t :| t in s.clients[c].pc.todo;
      var a, z := Act(c, Go(t)), OneReleased(s, c, t);
      OneReleasedIsRun(v, s, c, t);
      OneLessToRelease(s, c, t);
      var more := ReleasedIsRun(v, z, c);
      ReleasedInTurn(s, c, t);
      run := PrependTwice(v, s, a, z, more);
    }
  }

  lemma {:induction false} PrependTwice(v: Variant, s: State, a: Action, z: State, more: seq<Action>) returns (run: seq<Action>)
    requires Enabled(s, a) && Enabled(Step(v, s, a), a) && Step(v, Step(v, s, a), a) == z && Legal(v, z, more)
    ensures run == [a] + ([a] + more) && Legal(v, s, run) && After(v, s, run) == After(v, z, more)
  {
    Prepend(v, Step(v, s, a), a, more);
    Prepend(v, s, a, [a] + more);
    run := [a] + ([a] + more);
  }

  lemma LastOfRelease(v: Variant, s: State, c: ClientId)
    requires !s.crashed && CanRelease(s, c) && s.clients[c].pc.todo == {}
    ensures Enabled(s, Act(c, Go(0))) && Step(v, s, Act(c, Go(0))) == Released(s, c)
  {
    assert Released(s, c).tables == s.tables;
  }

  // ----- a whole request --------------------------------------------------

  /** The state after client `c`, alone, has dealt with a line that `Serve` took it to `cl` for. */
  function Answered(v: Variant, s: State, c: ClientId, cl: Client, pick: nat): State {
    Ended(Drive(v, s.(clients := s.clients[c := cl]), c, pick), c)
  }

  lemma AnsweredAtOnce(v: Variant, s: State, c: ClientId, cl: Client, pick: nat) returns (z: State)
    requires !IsUnderway(cl.pc)
    ensures z == Ended(s.(clients := s.clients[c := cl]), c)
    ensures z == Answered(v, s, c, cl, pick)
  {
    DriveStops(v, s.(clients := s.clients[c := cl]), c, pick);
    z := Ended(s.(clients := s.clients[c := cl]), c);
  }

  lemma AnsweredAccess(v: Variant, s: State, c: ClientId, t: TableId, cl: Client, pick: nat)
    requires !s.crashed && t in s.tables && IsAccess(cl.pc) && Subject(cl.pc) == Some(t)
    ensures var p := Solo(v, c, Spot(cl, s.tables[t]));
            Answered(v, s, c, cl, pick) ==
              Ended(s.(tables := s.tables[t := p.table]).(clients := s.clients[c := p.cl]), c)
  {
    var s1, p := s.(clients := s.clients[c := cl]), Solo(v, c, Spot(cl, s.tables[t]));
    DriveIsSolo(v, s1, c, t, pick);
    assert s1.clients[c := p.cl] == s.clients[c := p.cl];
  }

  /** What the thread locks are tables, and a release starts with all of them. */
  predicate IsOrderly(s: State, c: ClientId) {
    && c in s.clients && !s.crashed
    && s.clients[c].locked <= s.tables.Keys
    && (s.clients[c].pc.Releasing? ==> s.clients[c].pc.stage == None && s.clients[c].pc.todo == s.clients[c].locked)
  }

  lemma ContinueIsOrderly(v: Variant, cl: Client, registry: map<string, TableId>, store: Store, owner: Option<ClientId>, pick: nat)
    requires IsUnderway(cl.pc)
    ensures var (cl', e) := Continue(v, cl, registry, store, owner, pick);
            && cl'.locked <= cl.locked + (if Subject(cl.pc).Some? then {Subject(cl.pc).value} else {})
            && (cl'.pc.Releasing? ==> cl'.pc.stage == None && cl'.pc.todo == cl'.locked)
            && e != Crashes
  {
  }

  lemma GoIsOrderly(v: Variant, s: State, c: ClientId, pick: nat)
    requires IsOrderly(s, c) && Enabled(s, Act(c, Go(pick))) && IsUnderway(s.clients[c].pc)
    ensures IsOrderly(Step(v, s, Act(c, Go(pick))), c)
  {
    var cl := s.clients[c];
    ContinueIsOrderly(v, cl, s.registry, StoreAt(s, Subject(cl.pc)), OwnerAt(s, Subject(cl.pc)), pick);
    ApplyIsOrderly(s, c, Move(v, s, Act(c, Go(pick))));
  }

  lemma ApplyIsOrderly(s: State, c: ClientId, m: (Client, Effect))
    requires !s.crashed && m.1 != Crashes && m.0.locked <= s.tables.Keys
    requires m.0.pc.Releasing? ==> m.0.pc.stage == None && m.0.pc.todo == m.0.locked
    ensures IsOrderly(Apply(s, c, m.0, m.1), c)
  {
  }

  lemma {:induction false} DriveIsOrderly(v: Variant, s: State, c: ClientId, pick: nat)
    requires IsOrderly(s, c)
    ensures IsOrderly(Drive(v, s, c, pick), c)
    decreases StepsLeft(s.clients[c].pc)
  {
    if Enabled(s, Act(c, Go(pick))) && IsUnderway(s.clients[c].pc) {
      GoShrinks(v, s, c, pick);
      GoIsOrderly(v, s, c, pick);
      DriveIsOrderly(v, Step(v, s, Act(c, Go(pick))), c, pick);
    }
  }

  lemma {:induction false} EndedIsRun(v: Variant, s: State, c: ClientId) returns (run: seq<Action>)
    requires IsOrderly(s, c)
    ensures IsSolo(run, c) && Legal(v, s, run) && After(v, s, run) == Ended(s, c)
  {
    run := [];
    if s.clients[c].pc.Releasing? {
      run := ReleasedIsRun(v, s, c);
    }
  }

  /** Serving a line locks nothing, and starts a release with all that is locked. */
  predicate StartsOrderly(cl: Client, cl': Client) {
    cl'.locked <= cl.locked && (cl'.pc.Releasing? ==> cl'.pc.stage == None && cl'.pc.todo == cl'.locked)
  }

  lemma CalculateIsOrderly(cl: Client, r: Result)
    requires cl.pc == Idle
    ensures Calculate(cl, r).Some? ==> StartsOrderly(cl, Calculate(cl, r).value)
  {
  }

  lemma DispatchIsOrderly(cl: Client, registry: map<string, TableId>, m: Content)
    requires cl.pc == Idle
    ensures Dispatch(cl, registry, m).Some? ==> StartsOrderly(cl, Dispatch(cl, registry, m).value)
  {
    match m.kind
    case ADD => CalculateIsOrderly(cl, Arith(Add, cl.stack));
    case SUB => CalculateIsOrderly(cl, Arith(Sub, cl.stack));
    case MUL => CalculateIsOrderly(cl, Arith(Mul, cl.stack));
    case DIV => CalculateIsOrderly(cl, Arith(Div, cl.stack));
    case _ =>
  }

  lemma ServeIsOrderly(cl: Client, registry: map<string, TableId>, p: Parsed)
    requires cl.pc == Idle
    ensures Serve(cl, registry, p).Some? ==> StartsOrderly(cl, Serve(cl, registry, p).value)
  {
    if p.Good? && p.m.kind != LOGIN && cl.loggedIn {
      ServedIsDispatched(cl, registry, p.m);
      DispatchIsOrderly(cl.(lines := cl.lines + 1), registry, p.m);
    }
  }

  /** A request answered alone is a run of the state machine in which nobody else moves. */
  lemma {:induction false} AnsweredIsRun(v: Variant, s: State, c: ClientId, text: string, cl: Client, pick: nat) returns (run: seq<Action>)
    requires IsOrderly(s, c) && s.clients[c].pc == Idle && Serve(s.clients[c], s.registry, Parse(text)) == Some(cl)
    ensures run != [] && run[0] == Act(c, Request(text)) && IsSolo(run[1..], c)
    ensures Legal(v, s, run) && After(v, s, run) == Answered(v, s, c, cl, pick)
  {
    var q, s1 := Act(c, Request(text)), s.(clients := s.clients[c := cl]);
    RequestStep(v, s, c, text, Parse(text), cl);
    ServeIsOrderly(s.clients[c], s.registry, Parse(text));
    var first := DriveIsRun(v, s1, c, pick);
    DriveIsOrderly(v, s1, c, pick);
    var second := EndedIsRun(v, Drive(v, s1, c, pick), c);
    Append(v, s1, first, second);
    Prepend(v, s, q, first + second);
    run := [q] + (first + second);
  }
}
