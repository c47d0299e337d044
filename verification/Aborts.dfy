/** Atomicity of transactions that do not commit. */
module Aborts {
  import opened Deadlock
  import opened Engine
  import opened History
  import opened Holdings
  import opened Locks
  import opened Messages
  import opened Runs
  import opened SerialSteps
  import opened StackMachine
  import opened Tables
  import opened Wrappers

  /** The client is in a transaction that is not being committed. */
  predicate Uncommitted(cl: Client) {
    cl.inTx && !(cl.pc.Releasing? && cl.pc.commit)
  }

  /** The request is a COMMIT the dispatcher gets to see. */
  predicate IsCommitRequest(cl: Client, p: Parsed) {
    p.Good? && p.m.kind == COMMIT && cl.loggedIn
  }

  predicate BeginsRelease(cl: Client, commit: bool, locked: set<TableId>) {
    cl.pc.Releasing? && cl.pc.stage == None && cl.pc.todo == locked && cl.pc.commit == commit
  }

  lemma DispatchEnds(cl: Client, registry: map<string, TableId>, m: Content)
    requires cl.pc == Idle && cl.inTx && cl.loggedIn && m.kind != LOGIN
    requires Dispatch(cl, registry, m).Some? && !IsOpen(Dispatch(cl, registry, m).value)
    ensures BeginsRelease(Dispatch(cl, registry, m).value, m.kind == COMMIT, cl.locked)
    ensures m.kind == COMMIT ==> Dispatch(cl, registry, m).value.stack == cl.stack
  {
    match m.kind
    case ADD => CalculateEnds(cl, Arith(Add, cl.stack));
    case SUB => CalculateEnds(cl, Arith(Sub, cl.stack));
    case MUL => CalculateEnds(cl, Arith(Mul, cl.stack));
    case DIV => CalculateEnds(cl, Arith(Div, cl.stack));
    case _ =>
  }

  lemma CalculateEnds(cl: Client, r: Result)
    requires cl.pc == Idle && cl.inTx
    ensures Calculate(cl, r).Some? && !IsOpen(Calculate(cl, r).value) ==>
              BeginsRelease(Calculate(cl, r).value, false, cl.locked)
  {
  }

  lemma ServeEnds(cl: Client, registry: map<string, TableId>, p: Parsed)
    requires cl.pc == Idle && cl.inTx
    requires Serve(cl, registry, p).Some? && !IsOpen(Serve(cl, registry, p).value)
    ensures BeginsRelease(Serve(cl, registry, p).value, IsCommitRequest(cl, p), cl.locked)
  {
    var counted := cl.(lines := cl.lines + 1);
    if p.Good? && p.m.kind != LOGIN && cl.loggedIn {
      ServedIsDispatched(cl, registry, p.m);
      DispatchEnds(counted, registry, p.m);
    }
  }

  /** A COMMIT request is the only way out of a transaction that commits. Every
      other end (a line that does not parse, a missing table or key, a failed
      trylock, a nested BEGIN, an empty stack, BYE, a lost connection, ...) starts
      a rollback of all tables locked so far, in the code as written too. What
      that rollback is worth once a key was missing is another matter: see
      module StrayUnlock. */
  lemma OnlyCommitCommits(v: Variant, s: State, a: Action)
    requires HoldInv(s) && Enabled(s, a) && a.c in s.clients && IsOpen(s.clients[a.c])
    requires !IsOpen(Move(v, s, a).0)
    ensures var cl := Move(v, s, a).0;
            BeginsRelease(cl, a.input.Request? && IsCommitRequest(s.clients[a.c], Parse(a.input.text)), cl.locked)
    ensures Move(v, s, a).0.locked == s.clients[a.c].locked
  {
    var cl := s.clients[a.c];
    assert ThreadOk(s, cl);
    match a.input
    case Request(text) =>
      ServeHasShape(cl, s.registry, Parse(text));
      ServeEnds(cl, s.registry, Parse(text));
    case Eof =>
    case Go(pick) =>
  }

  // ----- no trace in the tables -------------------------------------------

  predicate SameCommitted(s: State, z: State) {
    forall t | t in s.tables :: t in z.tables && z.tables[t].store.committed == s.tables[t].store.committed
  }

  lemma HarmlessEffect(s: State, c: ClientId, cl: Client, e: Effect)
    requires e.Edits? ==> !e.e.CommitAll?
    requires e.Inserts? ==> e.id !in s.tables
    ensures SameCommitted(s, Apply(s, c, cl, e))
  {
  }

  lemma UncommittedEffect(v: Variant, s: State, a: Action)
    requires Enabled(s, a) && a.c in s.clients && Uncommitted(s.clients[a.c]) && ThreadOk(s, s.clients[a.c])
    ensures var e := Move(v, s, a).1;
            (e.Edits? ==> !e.e.CommitAll?) && (e.Inserts? ==> e.id !in s.tables)
  {
  }

  /** No step of an uncommitted transaction changes a committed map. */
  lemma UncommittedStep(v: Variant, s: State, a: Action)
    requires HoldInv(s) && Enabled(s, a) && a.c in s.clients && Uncommitted(s.clients[a.c])
    ensures SameCommitted(s, Step(v, s, a))
  {
    UncommittedEffect(v, s, a);
    HarmlessEffect(s, a.c, Move(v, s, a).0, Move(v, s, a).1);
  }

  lemma EffectElsewhere(s: State, c: ClientId, cl: Client, e: Effect, t: TableId)
    requires t in s.tables && (e.Edits? ==> e.t != t) && (e.Inserts? ==> e.id !in s.tables)
    ensures var z := Apply(s, c, cl, e); t in z.tables && z.tables[t].store == s.tables[t].store
  {
  }

  /** While client `c` owns a table inside an uncommitted transaction, or nobody
      does, nobody changes the table's committed map: a table has one holder. */
  lemma OwnedStep(v: Variant, s: State, a: Action, t: TableId, c: ClientId)
    requires HoldInv(s) && SoleHolder(s, t) && Enabled(s, a) && t in s.tables
    requires s.tables[t].owner == Some(c) ==> c in s.clients && Uncommitted(s.clients[c])
    requires s.tables[t].owner == None || s.tables[t].owner == Some(c)
    ensures var z := Step(v, s, a);
            t in z.tables && z.tables[t].store.committed == s.tables[t].store.committed
  {
    StepKeepsHoldings(v, s, a);
    var (cl, e) := Move(v, s, a);
    if e.Edits? && e.t == t {
      EditorOwns(s, a.c, cl, e, t);
      UncommittedStep(v, s, a);
    } else {
      EffectElsewhere(s, a.c, cl, e, t);
    }
  }

  lemma EditorOwns(s: State, c: ClientId, cl: Client, e: Effect, t: TableId)
    requires SoleHolder(s, t) && Fits(s, c, cl, e) && e.Edits? && e.t == t
    ensures c in s.clients && t in s.tables && s.tables[t].owner == Some(c)
  {
    GripIsHeld(s, c, t);
  }

  // ----- free tables show what is committed -------------------------------

  /** Before its first use and after its commit or rollback, a table's proposals only
      repeat what is committed. */
  predicate IsTidy(s: State, t: TableId) {
    t in s.tables && Status(s, t) == Clean ==> Shows(s.tables[t].store, map[])
  }

  /** What a holder of `t` does keeps it tidy. */
  predicate PhaseStep(was: Client, cl: Client, e: Effect, t: TableId) {
    && (e == Unlocks(t) ==> PhaseOf(was, t) == Clean)
    && (e.Edits? && e.t == t && e.e.PutEntry? ==> PhaseOf(cl, t) != Clean)
    && (!(e.Edits? && e.t == t) && PhaseOf(cl, t) == Clean ==> PhaseOf(was, t) == Clean)
  }

  lemma ContinuePhases(v: Variant, cl: Client, registry: map<string, TableId>, store: Store, owner: Option<ClientId>, pick: nat, t: TableId)
    requires t in Held(cl) && cl.pc != Stray(t) && (!cl.inTx ==> cl.locked == {}) && (cl.pc.AutoWait? ==> !cl.inTx)
    ensures var (cl', e) := Continue(v, cl, registry, store, owner, pick); PhaseStep(cl, cl', e, t)
  {
  }

  lemma MovePhases(v: Variant, s: State, a: Action, t: TableId)
    requires HoldInv(s) && SoleHolder(s, t) && Enabled(s, a) && a.c in s.clients && t in Held(s.clients[a.c])
    ensures PhaseStep(s.clients[a.c], Move(v, s, a).0, Move(v, s, a).1, t)
  {
    var cl := s.clients[a.c];
    assert ThreadOk(s, cl);
    match a.input
    case Request(text) => ServePhases(s, cl, Parse(text), t);
    case Eof =>
    case Go(pick) =>
      ContinuePhases(v, cl, s.registry, StoreAt(s, Subject(cl.pc)), OwnerAt(s, Subject(cl.pc)), pick, t);
  }

  lemma ServePhases(s: State, cl: Client, p: Parsed, t: TableId)
    requires RegistryOk(s) && ThreadOk(s, cl) && cl.pc == Idle
    ensures PhaseStep(cl, Receive(s, cl, p).0, Receive(s, cl, p).1, t)
  {
    if Serve(cl, s.registry, p).Some? {
      ServeHasShape(cl, s.registry, p);
      ServeFits(s, cl, p);
    }
  }

  /** A run's state after its first `k` actions. */
  function At(v: Variant, s: State, run: seq<Action>, k: nat): State
    requires Legal(v, s, run) && k <= |run|
    ensures Legal(v, s, run[..k])
  {
    LegalPrefix(v, s, run, k);
    After(v, s, run[..k])
  }

  lemma {:induction false} LegalPrefix(v: Variant, s: State, run: seq<Action>, k: nat)
    requires Legal(v, s, run) && k <= |run|
    ensures Legal(v, s, run[..k])
    decreases |run|
  {
    if k == |run| {
      assert run[..k] == run;
    } else {
      var n := |run| - 1;
      assert run[..n][..k] == run[..k];
      LegalPrefix(v, s, run[..n], k);
    }
  }

  /** In every state of the run from the `i`th on, table `t` is free or in the hands
      of client `c`, whose transaction is not committing. */
  predicate InUncommittedHands(v: Variant, s: State, run: seq<Action>, t: TableId, c: ClientId, i: nat)
    requires Legal(v, s, run) && i <= |run|
    decreases |run|
  {
    var y := After(v, s, run);
    && t in y.tables
    && (y.tables[t].owner == None || y.tables[t].owner == Some(c))
    && (y.tables[t].owner == Some(c) ==> c in y.clients && Uncommitted(y.clients[c]))
    && (i < |run| ==> InUncommittedHands(v, s, run[..|run| - 1], t, c, i))
  }

  lemma {:induction false} UntouchedInUncommittedHands(v: Variant, s: State, run: seq<Action>, t: TableId, c: ClientId, i: nat)
    requires AtRest(s) && Legal(v, s, run) && Spared(v, s, run, t) && i <= |run|
    requires InUncommittedHands(v, s, run, t, c, i)
    ensures t in At(v, s, run, i).tables && t in After(v, s, run).tables
    ensures After(v, s, run).tables[t].store.committed == At(v, s, run, i).tables[t].store.committed
    decreases |run|
  {
    if i == |run| {
      assert run[..i] == run;
    } else {
      var n := |run| - 1;
      LastAction(v, s, run);
      assert run[..n][..i] == run[..i];
      UntouchedInUncommittedHands(v, s, run[..n], t, c, i);
      HoldingsOnEveryRun(v, s, run[..n]);
      SoleOnEveryRun(v, s, run[..n], t);
      OwnedStep(v, After(v, s, run[..n]), run[n], t, c);
    }
  }

  /** Abort atomicity, seen from a table on which no GET has missed: between the
      moment a transaction locks it and the moment an abort has unlocked it, nothing
      observable happens to it. Every key reads the same before and after, as if the
      SETs never happened. */
  lemma {:induction false} AbortLeavesNoTrace(v: Variant, s: State, run: seq<Action>, t: TableId, c: ClientId, i: nat)
    requires AtRest(s) && Legal(v, s, run) && Spared(v, s, run, t) && i <= |run|
    requires InUncommittedHands(v, s, run, t, c, i)
    requires t in At(v, s, run, i).tables && At(v, s, run, i).tables[t].owner == None
    requires After(v, s, run).tables[t].owner == None
    ensures var before, after := At(v, s, run, i).tables[t].store, After(v, s, run).tables[t].store;
            after.committed == before.committed && forall k :: Fetch(after, k) == Fetch(before, k)
  {
    UntouchedInUncommittedHands(v, s, run, t, c, i);
    FreeIsClean(v, s, run, t);
    SparedPrefix(v, s, run, t, i);
    FreeIsClean(v, s, run[..i], t);
  }

  lemma {:induction false} SparedPrefix(v: Variant, s: State, run: seq<Action>, t: TableId, k: nat)
    requires Legal(v, s, run) && Spared(v, s, run, t) && k <= |run|
    ensures Legal(v, s, run[..k]) && Spared(v, s, run[..k], t)
    decreases |run|
  {
    if k == |run| {
      assert run[..k] == run;
    } else {
      var n := |run| - 1;
      assert run[..n][..k] == run[..k];
      SparedPrefix(v, s, run[..n], t, k);
    }
  }

  lemma TidyAfterEffect(s: State, c: ClientId, cl: Client, e: Effect, t: TableId)
    requires HoldInv(s) && SoleHolder(s, t) && Fits(s, c, cl, e) && IsTidy(s, t)
    requires c in s.clients && t in Held(s.clients[c]) ==> PhaseStep(s.clients[c], cl, e, t)
    ensures IsTidy(Apply(s, c, cl, e), t)
  {
    GripIsHeld(s, c, t);
    if c in s.clients && t in Held(s.clients[c]) {
      TidyByHolder(s, c, cl, e, t);
    } else {
      TidyByOthers(s, c, cl, e, t);
    }
  }

  lemma TidyByHolder(s: State, c: ClientId, cl: Client, e: Effect, t: TableId)
    requires t in s.tables && s.tables[t].owner == Some(c) && c in s.clients && Fits(s, c, cl, e) && IsTidy(s, t)
    requires PhaseStep(s.clients[c], cl, e, t)
    ensures IsTidy(Apply(s, c, cl, e), t)
  {
  }

  lemma TidyByOthers(s: State, c: ClientId, cl: Client, e: Effect, t: TableId)
    requires HoldInv(s) && Fits(s, c, cl, e) && IsTidy(s, t) && t !in Grip(Before(s, c))
    ensures IsTidy(Apply(s, c, cl, e), t)
  {
  }

  lemma TidyStep(v: Variant, s: State, a: Action, t: TableId)
    requires HoldInv(s) && SoleHolder(s, t) && Enabled(s, a) && IsTidy(s, t)
    ensures IsTidy(Step(v, s, a), t)
  {
    StepKeepsHoldings(v, s, a);
    if a.c in s.clients && t in Held(s.clients[a.c]) {
      MovePhases(v, s, a, t);
    }
    TidyAfterEffect(s, a.c, Move(v, s, a).0, Move(v, s, a).1, t);
  }

  lemma {:induction false} TidyOnEveryRun(v: Variant, s: State, run: seq<Action>, t: TableId)
    requires AtRest(s) && Legal(v, s, run) && Spared(v, s, run, t)
    ensures IsTidy(After(v, s, run), t)
  {
    if run != [] {
      var n := |run| - 1;
      TidyOnEveryRun(v, s, run[..n], t);
      HoldingsOnEveryRun(v, s, run[..n]);
      SoleOnEveryRun(v, s, run[..n], t);
      TidyStep(v, After(v, s, run[..n]), run[n], t);
    }
  }

  /** A table nobody has locked, and no GET has missed on, shows nothing but its
      committed entries. */
  lemma {:induction false} FreeIsClean(v: Variant, s: State, run: seq<Action>, t: TableId)
    requires AtRest(s) && Legal(v, s, run) && Spared(v, s, run, t)
    requires t in After(v, s, run).tables && After(v, s, run).tables[t].owner == None
    ensures var store := After(v, s, run).tables[t].store;
            forall k :: Fetch(store, k) == if k in store.committed then Some(store.committed[k]) else None
  {
    TidyOnEveryRun(v, s, run, t);
  }

  // ----- what an abort does not undo --------------------------------------

  /** Client `c` is out of its transaction and owns no table. */
  predicate IsThrough(z: State, c: ClientId)
    requires c in z.clients
  {
    !z.clients[c].inTx && z.clients[c].locked == {} && forall t | t in z.tables :: z.tables[t].owner != Some(c)
  }

  /** While client `c` rolls back, its stack stays as it was when the transaction
      failed, and no table disappears; once through, it owns nothing. */
  lemma AbortStep(v: Variant, s: State, a: Action, c: ClientId)
    requires HoldInv(s) && Enabled(s, a)
    requires c in s.clients && s.clients[c].pc.Releasing? && !s.clients[c].pc.commit
    ensures var z := Step(v, s, a);
            && c in z.clients
            && z.clients[c].stack == s.clients[c].stack
            && Extends(s, z)
            && (z.clients[c].pc.Releasing? || IsThrough(z, c))
  {
    StepExtends(v, s, a);
    StepKeepsHoldings(v, s, a);
    ReleaseStep(v, s, a, c);
  }

  /** The whole of a rollback, however the other clients interleave, its last step
      included, in the code as written too: from the moment the transaction failed
      the client's stack stays as it is, no table and no committed key disappears, and
      once the client is through with it, it is out of the transaction and owns no table. */
  lemma {:induction false} RollbackKeepsStack(v: Variant, s: State, run: seq<Action>, i: nat, c: ClientId)
    requires AtRest(s) && Legal(v, s, run) && i < |run|
    requires Legal(v, s, run[..|run| - 1]) && ReleasesFrom(v, s, run[..|run| - 1], i, c)
    requires !After(v, s, run[..|run| - 1]).clients[c].pc.commit
    ensures Legal(v, s, run[..i]) && c in After(v, s, run[..i]).clients && c in After(v, s, run).clients
    ensures After(v, s, run).clients[c].stack == After(v, s, run[..i]).clients[c].stack
    ensures Extends(After(v, s, run[..i]), After(v, s, run))
    ensures After(v, s, run).clients[c].pc.Releasing? || IsThrough(After(v, s, run), c)
  {
    var n := |run| - 1;
    LastAction(v, s, run);
    assert run[..n][..i] == run[..i];
    TwoPhaseRelease(v, s, run[..n], i, c);
    RegistryOnEveryRun(v, s, run, i);
    HoldingsOnEveryRun(v, s, run[..n]);
    AbortStep(v, After(v, s, run[..n]), run[n], c);
  }
}
