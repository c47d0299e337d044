/** Serializability of every run: each step of the server, matched with the
    recording of its history. */
module SerialSteps {
  import opened Engine
  import opened History
  import opened Holdings
  import opened Locks
  import opened Messages
  import opened Serial
  import opened Serializability
  import opened StackMachine
  import opened Tables
  import opened Wrappers

  /** The history so far replays without disagreement, to the present state. */
  ghost predicate Faithful(db0: Db, h: Hist, s: State) {
    ReplayAgrees(db0, h.log) && SerialInv(Replay(db0, h.log), h, s)
  }

  lemma OwnersDoExist(s: State)
    requires LockInv(s)
    ensures OwnersExist(s)
  {
  }

  /** A client that is not in a transaction and not in an autocommit operation owns nothing. */
  lemma OwnsNothing(s: State, c: ClientId)
    requires LockInv(s) && (c in s.clients ==> Held(s.clients[c]) == {})
    ensures forall t | t in s.tables :: s.tables[t].owner != Some(c)
  {
  }

  lemma OwnedIsHeld(s: State, c: ClientId)
    requires LockInv(s) && c in s.clients
    ensures forall t | t in s.tables && s.tables[t].owner == Some(c) :: t in Held(s.clients[c])
    ensures forall t | t in Held(s.clients[c]) :: t in s.tables && s.tables[t].owner == Some(c)
  {
  }

  // ----- requests ---------------------------------------------------------

  /** What serving a line can do to a client, as far as transactions go. */
  predicate ServeShape(cl: Client, registry: map<string, TableId>, op: Option<Op>, cl': Client) {
    && cl'.locked == cl.locked
    && (op.Some? ==> op.value.Absent? && op.value.table !in registry)
    && (cl.inTx ==>
          || (op == None && IsOpen(cl') && (cl'.pc == Idle || cl'.pc.TxAcquire? || cl'.pc.CreateWait?))
          || (!IsOpen(cl') && cl'.inTx && cl'.pc.Releasing? && cl'.pc.stage == None && cl'.pc.todo == cl.locked
              && (op.Some? ==> !cl'.pc.commit)))
    && (!cl.inTx ==> !IsOpen(cl') || (op == None && cl'.pc == Idle))
  }

  lemma DispatchShape(cl: Client, registry: map<string, TableId>, m: Content)
    requires cl.pc == Idle && (!cl.inTx ==> cl.locked == {}) && m.kind != LOGIN && cl.loggedIn
    requires Dispatch(cl, registry, m).Some?
    ensures ServeShape(cl, registry, MissingTable(cl, registry, Good(m)), Dispatch(cl, registry, m).value)
  {
    match m.kind
    case ADD => CalculateShape(cl, registry, Arith(Add, cl.stack));
    case SUB => CalculateShape(cl, registry, Arith(Sub, cl.stack));
    case MUL => CalculateShape(cl, registry, Arith(Mul, cl.stack));
    case DIV => CalculateShape(cl, registry, Arith(Div, cl.stack));
    case _ =>
  }

  lemma CalculateShape(cl: Client, registry: map<string, TableId>, r: Result)
    requires cl.pc == Idle && (!cl.inTx ==> cl.locked == {})
    ensures Calculate(cl, r).Some? ==> ServeShape(cl, registry, None, Calculate(cl, r).value)
  {
  }

  lemma ServeHasShape(cl: Client, registry: map<string, TableId>, p: Parsed)
    requires cl.pc == Idle && (!cl.inTx ==> cl.locked == {})
    ensures Serve(cl, registry, p).Some? ==>
              ServeShape(cl, registry, MissingTable(cl, registry, p), Serve(cl, registry, p).value)
    ensures Serve(cl, registry, p).None? ==> MissingTable(cl, registry, p) == None
  {
    if p.Good? && p.m.kind != LOGIN && cl.loggedIn {
      ServedIsDispatched(cl, registry, p.m);
      DispatchedHasShape(cl, registry, p.m, Dispatch(cl.(lines := cl.lines + 1), registry, p.m));
    }
  }

  lemma DispatchedHasShape(cl: Client, registry: map<string, TableId>, m: Content, r: Option<Client>)
    requires cl.pc == Idle && (!cl.inTx ==> cl.locked == {}) && m.kind != LOGIN && cl.loggedIn
    requires r == Dispatch(cl.(lines := cl.lines + 1), registry, m)
    ensures r.Some? ==> ServeShape(cl, registry, MissingTable(cl, registry, Good(m)), r.value)
    ensures r.None? ==> MissingTable(cl, registry, Good(m)) == None
  {
    var counted := cl.(lines := cl.lines + 1);
    if r.Some? {
      DispatchShape(counted, registry, m);
    }
  }

  /** The abort point of a transaction, with or without a last observation. */
  lemma AbortPoint(db0: Db, h: Hist, op: Option<Op>, s: State, s': State, c: ClientId, cl: Client)
    requires LockInv(s) && Faithful(db0, h, s) && c in s.clients && IsOpen(s.clients[c])
    requires OnlyClient(s, s', c, cl) && cl.pc.Releasing? && !cl.pc.commit && cl.pc.stage == None
    requires op.Some? ==> OpAgrees(Replay(db0, h.log), h.open[c], op.value)
    ensures c in h.open
    ensures Faithful(db0, Bound(Note(h, c, op), c, true, cl), s')
  {
    assert OpenAgrees(Replay(db0, h.log), h, s, c);
    var h' := AbortRecord(db0, h, op, c, cl);
    OwnersDoExist(s);
    OpenPhases(s, c, cl);
    TallyAbort(Replay(db0, h.log), h, h', s, s', c, cl);
  }

  /** What the abort adds to the history agrees with the database and leaves it alone. */
  lemma AbortRecord(db0: Db, h: Hist, op: Option<Op>, c: ClientId, cl: Client) returns (h': Hist)
    requires ReplayAgrees(db0, h.log) && c in h.open && OpsAgree(Replay(db0, h.log), h.open[c])
    requires cl.pc.Releasing? && !cl.pc.commit
    requires op.Some? ==> OpAgrees(Replay(db0, h.log), h.open[c], op.value)
    ensures h' == Bound(Note(h, c, op), c, true, cl) && h'.open == h.open - {c}
    ensures ReplayAgrees(db0, h'.log) && Replay(db0, h'.log) == Replay(db0, h.log)
  {
    h' := Bound(Note(h, c, op), c, true, cl);
    if op.Some? {
      OpsAppend(Replay(db0, h.log), h.open[c], op.value);
      AbortedUnit(db0, h, h.open[c] + [op.value], c, h');
    } else {
      AbortedUnit(db0, h, h.open[c], c, h');
    }
  }

  lemma AbortedUnit(db0: Db, h: Hist, ops: seq<Op>, c: ClientId, h': Hist)
    requires ReplayAgrees(db0, h.log) && OpsAgree(Replay(db0, h.log), ops)
    requires h' == Hist(h.log + [Txn(c, ops, false)], h'.open)
    ensures ReplayAgrees(db0, h'.log) && Replay(db0, h'.log) == Replay(db0, h.log)
  {
    ReplayAppend(db0, h.log, Txn(c, ops, false));
  }

  lemma OpenPhases(s: State, c: ClientId, cl: Client)
    requires LockInv(s) && c in s.clients && IsOpen(s.clients[c])
    requires cl.pc.Releasing? && cl.pc.stage == None
    ensures forall t | t in s.tables && s.tables[t].owner == Some(c) ::
              PhaseOf(s.clients[c], t) == InUse && PhaseOf(cl, t) == if cl.pc.commit then CommitDue else RollbackDue
  {
    assert ClientOk(s, s.clients[c]);
  }

  /** The commit point of a transaction. */
  lemma CommitPoint(db0: Db, h: Hist, s: State, s': State, c: ClientId, cl: Client)
    requires LockInv(s) && Faithful(db0, h, s) && c in s.clients && IsOpen(s.clients[c])
    requires OnlyClient(s, s', c, cl) && cl.pc.Releasing? && cl.pc.commit && cl.pc.stage == None
    ensures Faithful(db0, Bound(h, c, true, cl), s')
  {
    var db := Replay(db0, h.log);
    var h' := Bound(h, c, true, cl);
    assert OpenAgrees(db, h, s, c);
    ReplayAppend(db0, h.log, Txn(c, h.open[c], true));
    OpenPhases(s, c, cl);
    TallyCommit(db, h, h', s, s', c, cl);
  }

  /** A unit that agrees with the database and does not change it. */
  lemma IdleUnit(db0: Db, h: Hist, u: Unit, s: State, s': State, c: ClientId, cl: Client)
    requires Faithful(db0, h, s) && OwnersExist(s)
    requires UnitAgrees(Replay(db0, h.log), u) && UnitEffect(Replay(db0, h.log), u) == Replay(db0, h.log)
    requires OnlyClient(s, s', c, cl) && SamePhases(s, c, cl)
    requires IsOpen(cl) == IsOpen(ClientAt(s, c)) && cl.locked == ClientAt(s, c).locked
    ensures Faithful(db0, h.(log := h.log + [u]), s')
  {
    ReplayAppend(db0, h.log, u);
    TallyQuiet(Replay(db0, h.log), h, h.(log := h.log + [u]), s, s', c, cl);
  }

  lemma RequestOutsideIsSerial(db0: Db, h: Hist, op: Option<Op>, s: State, s': State, c: ClientId, cl: Client)
    requires LockInv(s) && Faithful(db0, h, s) && c in s.clients && s.clients[c].pc == Idle && !s.clients[c].inTx
    requires OnlyClient(s, s', c, cl) && ServeShape(s.clients[c], s.registry, op, cl)
    ensures Faithful(db0, Bound(Note(h, c, op), c, false, cl), s')
  {
    var db := Replay(db0, h.log);
    OwnersDoExist(s);
    assert ClientOk(s, s.clients[c]);
    OwnsNothing(s, c);
    if IsOpen(cl) {
      TallyBegin(db, h, s, s', c, cl);
    } else if op.Some? {
      MergeNothing(db, op.value);
      IdleUnit(db0, h, One(c, op.value), s, s', c, cl);
    } else {
      TallyQuiet(db, h, h, s, s', c, cl);
    }
  }

  lemma RequestInsideIsSerial(db0: Db, h: Hist, op: Option<Op>, s: State, s': State, c: ClientId, cl: Client)
    requires LockInv(s) && Faithful(db0, h, s) && c in s.clients && s.clients[c].pc == Idle && s.clients[c].inTx
    requires OnlyClient(s, s', c, cl) && ServeShape(s.clients[c], s.registry, op, cl)
    ensures Faithful(db0, Bound(Note(h, c, op), c, true, cl), s')
  {
    if IsOpen(cl) {
      OwnersDoExist(s);
      EqualPhases(s, c, cl);
      TallyQuiet(Replay(db0, h.log), h, h, s, s', c, cl);
    } else if cl.pc.commit {
      CommitPoint(db0, h, s, s', c, cl);
    } else {
      AbortPoint(db0, h, op, s, s', c, cl);
    }
  }

  lemma CrashIsSerial(db0: Db, h: Hist, s: State, c: ClientId)
    requires LockInv(s) && Faithful(db0, h, s) && c in s.clients
    ensures Faithful(db0, h, Apply(s, c, s.clients[c], Crashes))
  {
    OwnersDoExist(s);
    TallyQuiet(Replay(db0, h.log), h, h, s, Apply(s, c, s.clients[c], Crashes), c, s.clients[c]);
  }

  lemma RequestIsSerial(db0: Db, h: Hist, s: State, c: ClientId, p: Parsed)
    requires LockInv(s) && Faithful(db0, h, s) && c in s.clients && s.clients[c].pc == Idle
    ensures var (cl, e) := Receive(s, s.clients[c], p);
            Faithful(db0, Bound(Note(h, c, MissingTable(s.clients[c], s.registry, p)), c, IsOpen(s.clients[c]), cl),
                     Apply(s, c, cl, e))
  {
    var old_ := s.clients[c];
    assert ClientOk(s, old_);
    ServeHasShape(old_, s.registry, p);
    var (cl, e) := Receive(s, old_, p);
    var s', op := Apply(s, c, cl, e), MissingTable(old_, s.registry, p);
    if e == Crashes {
      CrashIsSerial(db0, h, s, c);
    } else if old_.inTx {
      RequestInsideIsSerial(db0, h, op, s, s', c, cl);
    } else {
      RequestOutsideIsSerial(db0, h, op, s, s', c, cl);
    }
  }

  // ----- resumed threads --------------------------------------------------

  /** What a resumed thread's step adds to the history. */
  function Recorded(h: Hist, s: State, c: ClientId, cl': Client): Hist
    requires c in s.clients
  {
    var cl := s.clients[c];
    var h1 := Note(h, c, TableAccess(s, cl));
    var h2 := if Creation(s, c, cl).Some? then h1.(log := h1.log + [Creation(s, c, cl).value]) else h1;
    Bound(h2, c, IsOpen(cl), cl')
  }

  ghost predicate ResumeIsSerial(db0: Db, h: Hist, s: State, c: ClientId, pick: nat)
    requires c in s.clients
  {
    var (cl', e) := Resume(Line433Dropped, s, s.clients[c], pick);
    Faithful(db0, Recorded(h, s, c, cl'), Apply(s, c, cl', e))
  }

  /** Enough about one step to know it is recorded faithfully. */
  lemma ByParts(db0: Db, h: Hist, s: State, c: ClientId, pick: nat, cl': Client, e: Effect, h': Hist)
    requires c in s.clients && Resume(Line433Dropped, s, s.clients[c], pick) == (cl', e)
    requires Recorded(h, s, c, cl') == h' && Faithful(db0, h', Apply(s, c, cl', e))
    ensures ResumeIsSerial(db0, h, s, c, pick)
  {
  }

  ghost predicate Ready(db0: Db, h: Hist, s: State, c: ClientId, pick: nat) {
    LockInv(s) && Faithful(db0, h, s) && Enabled(s, Act(c, Go(pick)))
  }

  // What each effect leaves alone.

  lemma EditIsOnlyStore(s: State, c: ClientId, cl: Client, t: TableId, e: Edit)
    requires t in s.tables
    ensures OnlyStore(s, Apply(s, c, cl, Edits(t, e)), c, cl, t, e)
  {
  }

  lemma QuietIsOnlyClient(s: State, c: ClientId, cl: Client, e: Effect)
    requires e.Nothing? || e.LocksServer? || e.UnlocksServer?
    ensures OnlyClient(s, Apply(s, c, cl, e), c, cl)
  {
  }

  lemma LockIsOnlyOwner(s: State, c: ClientId, cl: Client, t: TableId)
    requires t in s.tables
    ensures OnlyOwner(s, Apply(s, c, cl, Locks(t)), c, cl, t, Some(c))
    ensures OnlyOwner(s, Apply(s, c, cl, Unlocks(t)), c, cl, t, None)
  {
  }

  // Where the client's tables stand across a step.

  lemma EqualPhases(s: State, c: ClientId, cl: Client)
    requires c in s.clients
    requires || (s.clients[c].pc.TxAcquire? && cl.pc.TxRun?)
             || (s.clients[c].pc.AutoRun? && cl.pc.AutoUnlock?)
             || (s.clients[c].pc == Idle && (cl.pc == Idle || cl.pc.TxAcquire? || cl.pc.CreateWait?))
    ensures SamePhases(s, c, cl)
  {
  }

  lemma ReleasePhases(s: State, c: ClientId, cl: Client, t: TableId)
    requires c in s.clients && s.clients[c].pc.Releasing? && cl.pc.Releasing? && cl.pc.commit == s.clients[c].pc.commit
    requires cl.pc.stage == None || cl.pc.stage == Some(t)
    requires s.clients[c].pc.stage == None || s.clients[c].pc.stage == Some(t)
    ensures forall x | x in s.tables && x != t && s.tables[x].owner == Some(c) :: PhaseOf(cl, x) == PhaseOf(s.clients[c], x)
  {
  }

  // What a step does, and what it records.

  lemma AutoMove(h: Hist, s: State, c: ClientId, pick: nat) returns (cl': Client, e: Effect)
    requires c in s.clients && !s.clients[c].inTx
    requires s.clients[c].pc.AutoWait? || s.clients[c].pc.AutoCommit? || s.clients[c].pc.AutoUnlock?
    ensures Resume(Line433Dropped, s, s.clients[c], pick) == (cl', e) && Recorded(h, s, c, cl') == h
    ensures var cl, t := s.clients[c], s.clients[c].pc.t;
            match cl.pc
            case AutoWait(op, _) => cl' == cl.(pc := AutoRun(op, t)) && e == Locks(t)
            case AutoCommit(_) => cl' == cl.(pc := AutoUnlock(t, Okay)) && e == Edits(t, CommitAll)
            case AutoUnlock(_, r) => cl' == Respond(cl, r) && e == Unlocks(t)
  {
    var m := Resume(Line433Dropped, s, s.clients[c], pick);
    cl', e := m.0, m.1;
  }

  lemma TxSetMove(h: Hist, s: State, c: ClientId, pick: nat) returns (cl': Client)
    requires c in s.clients && c in h.open && s.clients[c].pc.TxRun? && s.clients[c].pc.op.SetOp?
    requires s.clients[c].pc.t in s.tables && s.clients[c].inTx
    ensures var cl := s.clients[c];
            var t, k, v := cl.pc.t, cl.pc.op.key, TopOf(cl.stack);
            && cl' == Respond(cl.(stack := Popped(cl.stack)), Okay)
            && Resume(Line433Dropped, s, cl, pick) == (cl', Edits(t, PutEntry(k, v)))
            && Recorded(h, s, c, cl') == Extended(h, c, Write(s.tables[t].name, k, v))
  {
    cl' := Resume(Line433Dropped, s, s.clients[c], pick).0;
  }

  lemma AutoWaitIsSerial(db0: Db, h: Hist, s: State, c: ClientId, pick: nat)
    requires Ready(db0, h, s, c, pick) && s.clients[c].pc.AutoWait?
    ensures ResumeIsSerial(db0, h, s, c, pick)
  {
    assert ClientOk(s, s.clients[c]);
    OwnersDoExist(s);
    OwnsNothing(s, c);
    var cl', e := AutoMove(h, s, c, pick);
    AutoWaitFaithful(db0, h, s, c, cl');
    ByParts(db0, h, s, c, pick, cl', e, h);
  }

  lemma AutoWaitFaithful(db0: Db, h: Hist, s: State, c: ClientId, cl': Client)
    requires Faithful(db0, h, s) && OwnersExist(s) && RegistryOk(s) && c in s.clients && s.clients[c].pc.AutoWait?
    requires !s.clients[c].inTx && s.clients[c].locked == {}
    requires forall t | t in s.tables :: s.tables[t].owner != Some(c)
    requires var t := s.clients[c].pc.t;
             t in s.tables && s.tables[t].owner == None && cl' == s.clients[c].(pc := AutoRun(s.clients[c].pc.op, t))
    ensures Faithful(db0, h, Apply(s, c, cl', Locks(s.clients[c].pc.t)))
  {
    LockIsOnlyOwner(s, c, cl', s.clients[c].pc.t);
    var t := s.clients[c].pc.t;
    TallyLock(Replay(db0, h.log), h, s, Apply(s, c, cl', Locks(t)), c, cl', t);
  }

  /** Client `c` owns table `t` and no other. */
  ghost predicate OwnsOnly(s: State, c: ClientId, t: TableId) {
    && c in s.clients && t in s.tables && s.tables[t].owner == Some(c)
    && forall x | x in s.tables && s.tables[x].owner == Some(c) :: x == t
  }

  lemma AutocommitOwns(s: State, c: ClientId, t: TableId)
    requires LockInv(s) && c in s.clients && Held(s.clients[c]) == {t}
    ensures OwnsOnly(s, c, t) && OwnersExist(s)
  {
  }

  lemma AutoGetFaithful(db0: Db, h: Hist, s: State, c: ClientId, cl': Client, t: TableId, k: string)
    requires Faithful(db0, h, s) && OwnersExist(s) && OwnsOnly(s, c, t)
    requires s.clients[c].pc == AutoRun(GetOp(k), t) && cl'.pc.AutoUnlock? && !cl'.inTx && !s.clients[c].inTx
    requires cl'.locked == s.clients[c].locked
    ensures Faithful(db0, h.(log := h.log + [One(c, Read(s.tables[t].name, k, Fetch(s.tables[t].store, k)))]),
                     Apply(s, c, cl', Nothing))
  {
    EqualPhases(s, c, cl');
    QuietIsOnlyClient(s, c, cl', Nothing);
    var db, tb := Replay(db0, h.log), s.tables[t];
    assert TableTallies(db, h, s, t);
    var op := Read(tb.name, k, Fetch(tb.store, k));
    ShownRead(tb.store, map[], k);
    MergeNothing(db, op);
    IdleUnit(db0, h, One(c, op), s, Apply(s, c, cl', Nothing), c, cl');
  }

  lemma NotOpen(db0: Db, h: Hist, s: State, c: ClientId)
    requires Faithful(db0, h, s) && c in s.clients && !IsOpen(s.clients[c])
    ensures c !in h.open
  {
  }

  lemma AutoGetIsSerial(db0: Db, h: Hist, s: State, c: ClientId, pick: nat)
    requires Ready(db0, h, s, c, pick) && s.clients[c].pc.AutoRun? && s.clients[c].pc.op.GetOp?
    ensures ResumeIsSerial(db0, h, s, c, pick)
  {
    var cl := s.clients[c];
    var t, k := cl.pc.t, cl.pc.op.key;
    assert ClientOk(s, cl);
    AutocommitOwns(s, c, t);
    NotOpen(db0, h, s, c);
    var cl' := AutoGetMove(h, s, c, pick);
    AutoGetFaithful(db0, h, s, c, cl', t, k);
    ByParts(db0, h, s, c, pick, cl', Nothing, h.(log := h.log + [One(c, Read(s.tables[t].name, k, Fetch(s.tables[t].store, k)))]));
  }

  lemma AutoGetMove(h: Hist, s: State, c: ClientId, pick: nat) returns (cl': Client)
    requires c in s.clients && c !in h.open && s.clients[c].pc.AutoRun? && s.clients[c].pc.op.GetOp?
    requires s.clients[c].pc.t in s.tables && !s.clients[c].inTx
    ensures Resume(Line433Dropped, s, s.clients[c], pick) == (cl', Nothing)
    ensures cl'.pc.AutoUnlock? && !cl'.inTx && cl'.locked == s.clients[c].locked
    ensures var t, k := s.clients[c].pc.t, s.clients[c].pc.op.key;
            Recorded(h, s, c, cl') == h.(log := h.log + [One(c, Read(s.tables[t].name, k, Fetch(s.tables[t].store, k)))])
  {
    cl' := Resume(Line433Dropped, s, s.clients[c], pick).0;
  }

  lemma RowExists(db0: Db, h: Hist, s: State, t: TableId)
    requires Faithful(db0, h, s) && t in s.tables
    ensures s.tables[t].name in Replay(db0, h.log)
    ensures Status(s, t) == Clean ==>
              Tallies(Replay(db0, h.log)[s.tables[t].name], s.tables[t].store, Clean, map[])
  {
    assert TableTallies(Replay(db0, h.log), h, s, t);
  }

  lemma WriteReplays(db0: Db, log: seq<Unit>, c: ClientId, n: string, k: string, v: string)
    requires ReplayAgrees(db0, log) && n in Replay(db0, log)
    ensures ReplayAgrees(db0, log + [One(c, Write(n, k, v))])
    ensures Replay(db0, log + [One(c, Write(n, k, v))]) == WithEntry(Replay(db0, log), n, k, v)
  {
    ReplayAppend(db0, log, One(c, Write(n, k, v)));
    MergeOne(Replay(db0, log), n, k, v);
  }

  lemma AutoSetFaithful(db0: Db, h: Hist, s: State, s': State, c: ClientId, cl': Client, t: TableId, k: string, v: string)
    requires Faithful(db0, h, s) && LockInv(s) && c in s.clients && Held(s.clients[c]) == {t} && OnlyStore(s, s', c, cl', t, PutEntry(k, v))
    requires Status(s, t) == Clean && PhaseOf(cl', t) == CommitDue && !IsOpen(cl') && !IsOpen(s.clients[c])
    ensures Faithful(db0, h.(log := h.log + [One(c, Write(s.tables[t].name, k, v))]), s')
  {
    RowExists(db0, h, s, t);
    WriteReplays(db0, h.log, c, s.tables[t].name, k, v);
    TallyAutoWrite(Replay(db0, h.log), h, h.(log := h.log + [One(c, Write(s.tables[t].name, k, v))]), s, s', c, cl', t, k, v);
  }

  lemma AutoSetMove(h: Hist, s: State, c: ClientId, pick: nat) returns (cl': Client)
    requires c in s.clients && c !in h.open && s.clients[c].pc.AutoRun? && s.clients[c].pc.op.SetOp?
    requires s.clients[c].pc.t in s.tables && !s.clients[c].inTx
    ensures var t, k, v := s.clients[c].pc.t, s.clients[c].pc.op.key, TopOf(s.clients[c].stack);
            && Resume(Line433Dropped, s, s.clients[c], pick) == (cl', Edits(t, PutEntry(k, v)))
            && Recorded(h, s, c, cl') == h.(log := h.log + [One(c, Write(s.tables[t].name, k, v))])
            && cl'.pc == AutoCommit(t) && !cl'.inTx
  {
    cl' := Resume(Line433Dropped, s, s.clients[c], pick).0;
  }

  lemma AutoSetIsSerial(db0: Db, h: Hist, s: State, c: ClientId, pick: nat)
    requires Ready(db0, h, s, c, pick) && s.clients[c].pc.AutoRun? && s.clients[c].pc.op.SetOp?
    ensures ResumeIsSerial(db0, h, s, c, pick)
  {
    assert ClientOk(s, s.clients[c]);
    AutocommitOwns(s, c, s.clients[c].pc.t);
    NotOpen(db0, h, s, c);
    var cl' := AutoSetMove(h, s, c, pick);
    AutoSetConcludes(db0, h, s, c, pick, cl');
  }

  lemma AutoSetConcludes(db0: Db, h: Hist, s: State, c: ClientId, pick: nat, cl': Client)
    requires Faithful(db0, h, s) && LockInv(s)
    requires c in s.clients && s.clients[c].pc.AutoRun? && s.clients[c].pc.op.SetOp? && !s.clients[c].inTx
    requires OwnsOnly(s, c, s.clients[c].pc.t)
    requires cl'.pc == AutoCommit(s.clients[c].pc.t) && !cl'.inTx
    requires var t, k, v := s.clients[c].pc.t, s.clients[c].pc.op.key, TopOf(s.clients[c].stack);
             && Resume(Line433Dropped, s, s.clients[c], pick) == (cl', Edits(t, PutEntry(k, v)))
             && Recorded(h, s, c, cl') == h.(log := h.log + [One(c, Write(s.tables[t].name, k, v))])
    ensures ResumeIsSerial(db0, h, s, c, pick)
  {
    var t, k, v := s.clients[c].pc.t, s.clients[c].pc.op.key, TopOf(s.clients[c].stack);
    EditIsOnlyStore(s, c, cl', t, PutEntry(k, v));
    AutoSetFaithful(db0, h, s, Apply(s, c, cl', Edits(t, PutEntry(k, v))), c, cl', t, k, v);
    ByParts(db0, h, s, c, pick, cl', Edits(t, PutEntry(k, v)), h.(log := h.log + [One(c, Write(s.tables[t].name, k, v))]));
  }

  lemma AutoCommitFaithful(db0: Db, h: Hist, s: State, c: ClientId, cl': Client, t: TableId)
    requires Faithful(db0, h, s) && OwnersExist(s) && OwnsOnly(s, c, t)
    requires s.clients[c].pc == AutoCommit(t) && cl'.pc.AutoUnlock? && !cl'.inTx && !s.clients[c].inTx
    ensures Faithful(db0, h, Apply(s, c, cl', Edits(t, CommitAll)))
  {
    EditIsOnlyStore(s, c, cl', t, CommitAll);
    TallyEdit(Replay(db0, h.log), h, s, Apply(s, c, cl', Edits(t, CommitAll)), c, cl', t, CommitAll);
  }

  lemma AutoCommitIsSerial(db0: Db, h: Hist, s: State, c: ClientId, pick: nat)
    requires Ready(db0, h, s, c, pick) && s.clients[c].pc.AutoCommit?
    ensures ResumeIsSerial(db0, h, s, c, pick)
  {
    assert ClientOk(s, s.clients[c]);
    AutocommitOwns(s, c, s.clients[c].pc.t);
    var cl', e := AutoMove(h, s, c, pick);
    AutoCommitFaithful(db0, h, s, c, cl', s.clients[c].pc.t);
    ByParts(db0, h, s, c, pick, cl', e, h);
  }

  lemma AutoUnlockFaithful(db0: Db, h: Hist, s: State, c: ClientId, cl': Client, t: TableId)
    requires Faithful(db0, h, s) && OwnersExist(s) && OwnsOnly(s, c, t)
    requires s.clients[c].pc.AutoUnlock? && !cl'.inTx && !s.clients[c].inTx
    ensures Faithful(db0, h, Apply(s, c, cl', Unlocks(t)))
  {
    LockIsOnlyOwner(s, c, cl', t);
    TallyUnlock(Replay(db0, h.log), h, s, Apply(s, c, cl', Unlocks(t)), c, cl', t);
  }

  lemma AutoUnlockIsSerial(db0: Db, h: Hist, s: State, c: ClientId, pick: nat)
    requires Ready(db0, h, s, c, pick) && s.clients[c].pc.AutoUnlock?
    ensures ResumeIsSerial(db0, h, s, c, pick)
  {
    assert ClientOk(s, s.clients[c]);
    AutocommitOwns(s, c, s.clients[c].pc.t);
    var cl', e := AutoMove(h, s, c, pick);
    AutoUnlockFaithful(db0, h, s, c, cl', s.clients[c].pc.t);
    ByParts(db0, h, s, c, pick, cl', e, h);
  }

  /** Client `c` owns exactly the tables it has in `locked_tables`. */
  ghost predicate OwnsLocked(s: State, c: ClientId) {
    && c in s.clients
    && forall x | x in s.tables :: s.tables[x].owner == Some(c) <==> x in s.clients[c].locked
  }

  lemma TransactionOwns(s: State, c: ClientId)
    requires LockInv(s) && c in s.clients && Held(s.clients[c]) == s.clients[c].locked
    ensures OwnsLocked(s, c) && OwnersExist(s)
  {
  }

  lemma TxHoldsFaithful(db0: Db, h: Hist, s: State, c: ClientId, cl': Client)
    requires Faithful(db0, h, s) && OwnersExist(s) && c in s.clients
    requires s.clients[c].pc.TxAcquire? && cl'.pc.TxRun? && cl'.inTx && s.clients[c].inTx && cl'.locked == s.clients[c].locked
    ensures Faithful(db0, h, Apply(s, c, cl', Nothing))
  {
    EqualPhases(s, c, cl');
    QuietIsOnlyClient(s, c, cl', Nothing);
    TallyQuiet(Replay(db0, h.log), h, h, s, Apply(s, c, cl', Nothing), c, cl');
  }

  lemma TxLocksFaithful(db0: Db, h: Hist, s: State, c: ClientId, cl': Client, t: TableId)
    requires Faithful(db0, h, s) && OwnersExist(s) && RegistryOk(s) && c in s.clients
    requires t in s.tables && s.tables[t].owner == None && t !in s.clients[c].locked
    requires s.clients[c].pc.TxAcquire? && cl'.pc.TxRun? && cl'.inTx && s.clients[c].inTx
    requires cl'.locked == s.clients[c].locked + {t}
    ensures Faithful(db0, h, Apply(s, c, cl', Locks(t)))
  {
    EqualPhases(s, c, cl');
    LockIsOnlyOwner(s, c, cl', t);
    TallyLock(Replay(db0, h.log), h, s, Apply(s, c, cl', Locks(t)), c, cl', t);
  }

  /** What a transaction's step towards its table does, and that it records nothing
      unless it is the abort point. */
  lemma TxAcquireMove(h: Hist, s: State, c: ClientId, pick: nat) returns (cl': Client, e: Effect)
    requires c in s.clients && s.clients[c].pc.TxAcquire? && s.clients[c].inTx && s.clients[c].pc.t in s.tables
    ensures Resume(Line433Dropped, s, s.clients[c], pick) == (cl', e)
    ensures var cl, t := s.clients[c], s.clients[c].pc.t;
            if t in cl.locked then cl' == cl.(pc := TxRun(cl.pc.op, t)) && e == Nothing && Recorded(h, s, c, cl') == h
            else if s.tables[t].owner == None then
              cl' == cl.(pc := TxRun(cl.pc.op, t), locked := cl.locked + {t}) && e == Locks(t) && Recorded(h, s, c, cl') == h
            else cl' == Throw(cl, TableBusy) && e == Nothing && Recorded(h, s, c, cl') == Bound(h, c, true, cl')
  {
    var m := Resume(Line433Dropped, s, s.clients[c], pick);
    cl', e := m.0, m.1;
  }

  lemma TxAcquireIsSerial(db0: Db, h: Hist, s: State, c: ClientId, pick: nat)
    requires Ready(db0, h, s, c, pick) && s.clients[c].pc.TxAcquire?
    ensures ResumeIsSerial(db0, h, s, c, pick)
  {
    var t := s.clients[c].pc.t;
    assert ClientOk(s, s.clients[c]);
    OwnersDoExist(s);
    var cl', e := TxAcquireMove(h, s, c, pick);
    if t in s.clients[c].locked {
      TxHoldsFaithful(db0, h, s, c, cl');
    } else if s.tables[t].owner == None {
      TxLocksFaithful(db0, h, s, c, cl', t);
    } else {
      QuietIsOnlyClient(s, c, cl', Nothing);
      AbortPoint(db0, h, None, s, Apply(s, c, cl', Nothing), c, cl');
    }
    ByParts(db0, h, s, c, pick, cl', e, Recorded(h, s, c, cl'));
  }

  lemma TxOpen(db0: Db, h: Hist, s: State, c: ClientId)
    requires Faithful(db0, h, s) && c in s.clients && IsOpen(s.clients[c])
    ensures c in h.open
  {
  }

  lemma TxGetFaithful(db0: Db, h: Hist, s: State, c: ClientId, cl': Client, op: Op)
    requires Faithful(db0, h, s) && OwnersExist(s) && c in h.open && c in s.clients
    requires s.clients[c].pc.TxRun? && cl'.pc == Idle && cl'.inTx && cl'.locked == s.clients[c].locked
    requires op.Read? && op.table in NamesOf(s, cl'.locked) && OpAgrees(Replay(db0, h.log), h.open[c], op)
    ensures Faithful(db0, Extended(h, c, op), Apply(s, c, cl', Nothing))
  {
    QuietIsOnlyClient(s, c, cl', Nothing);
    TallyRead(Replay(db0, h.log), h, s, Apply(s, c, cl', Nothing), c, cl', op);
  }

  lemma TxGetIsSerial(db0: Db, h: Hist, s: State, c: ClientId, pick: nat)
    requires Ready(db0, h, s, c, pick) && s.clients[c].pc.TxRun? && s.clients[c].pc.op.GetOp?
    ensures ResumeIsSerial(db0, h, s, c, pick)
  {
    var cl := s.clients[c];
    var t, k := cl.pc.t, cl.pc.op.key;
    assert ClientOk(s, cl);
    TransactionOwns(s, c);
    TxOpen(db0, h, s, c);
    assert t in Held(cl);
    OpenRead(Replay(db0, h.log), h, s, c, t, k);
    var op := Read(s.tables[t].name, k, Fetch(s.tables[t].store, k));
    TxGetConcludes(db0, h, s, c, pick, op);
  }

  lemma TxGetConcludes(db0: Db, h: Hist, s: State, c: ClientId, pick: nat, op: Op)
    requires LockInv(s) && Faithful(db0, h, s) && OwnersExist(s) && c in h.open && c in s.clients
    requires s.clients[c].pc.TxRun? && s.clients[c].pc.op.GetOp? && s.clients[c].inTx
    requires s.clients[c].pc.t in s.tables && s.clients[c].pc.t in s.clients[c].locked
    requires TableAccess(s, s.clients[c]) == Some(op) && OpAgrees(Replay(db0, h.log), h.open[c], op)
    ensures ResumeIsSerial(db0, h, s, c, pick)
  {
    var t, k := s.clients[c].pc.t, s.clients[c].pc.op.key;
    var cl' := TxGetMove(h, s, c, pick, op);
    if HasKey(s.tables[t].store, k) {
      assert s.tables[t].name in NamesOf(s, s.clients[c].locked);
      TxGetFaithful(db0, h, s, c, cl', op);
    } else {
      QuietIsOnlyClient(s, c, cl', Nothing);
      AbortPoint(db0, h, Some(op), s, Apply(s, c, cl', Nothing), c, cl');
    }
    ByParts(db0, h, s, c, pick, cl', Nothing, Recorded(h, s, c, cl'));
  }

  lemma TxGetMove(h: Hist, s: State, c: ClientId, pick: nat, op: Op) returns (cl': Client)
    requires c in s.clients && c in h.open && s.clients[c].pc.TxRun? && s.clients[c].pc.op.GetOp? && s.clients[c].inTx
    requires s.clients[c].pc.t in s.tables && TableAccess(s, s.clients[c]) == Some(op)
    ensures Resume(Line433Dropped, s, s.clients[c], pick) == (cl', Nothing)
    ensures var cl, store, k := s.clients[c], s.tables[s.clients[c].pc.t].store, s.clients[c].pc.op.key;
            if HasKey(store, k) then
              cl' == Respond(cl.(stack := cl.stack + [Fetch(store, k).value]), Okay) && Recorded(h, s, c, cl') == Extended(h, c, op)
            else cl' == Throw(cl, KeyNotFound) && Recorded(h, s, c, cl') == Bound(Note(h, c, Some(op)), c, true, cl')
  {
    cl' := Resume(Line433Dropped, s, s.clients[c], pick).0;
  }

  lemma TxSetIsSerial(db0: Db, h: Hist, s: State, c: ClientId, pick: nat)
    requires Ready(db0, h, s, c, pick) && s.clients[c].pc.TxRun? && s.clients[c].pc.op.SetOp?
    ensures ResumeIsSerial(db0, h, s, c, pick)
  {
    var t, k, v := s.clients[c].pc.t, s.clients[c].pc.op.key, TopOf(s.clients[c].stack);
    assert ClientOk(s, s.clients[c]);
    OwnersDoExist(s);
    OwnedIsHeld(s, c);
    TxOpen(db0, h, s, c);
    var cl' := TxSetMove(h, s, c, pick);
    TxSetFaithful(db0, h, s, c, cl', t, k, v);
    ByParts(db0, h, s, c, pick, cl', Edits(t, PutEntry(k, v)), Extended(h, c, Write(s.tables[t].name, k, v)));
  }

  lemma TxSetFaithful(db0: Db, h: Hist, s: State, c: ClientId, cl': Client, t: TableId, k: string, v: string)
    requires Faithful(db0, h, s) && OwnersExist(s) && RegistryOk(s)
    requires c in h.open && c in s.clients && s.clients[c].pc == TxRun(SetOp(k), t) && s.clients[c].inTx
    requires t in s.tables && s.tables[t].owner == Some(c) && t in s.clients[c].locked
    requires cl' == Respond(s.clients[c].(stack := Popped(s.clients[c].stack)), Okay)
    ensures Faithful(db0, Extended(h, c, Write(s.tables[t].name, k, v)), Apply(s, c, cl', Edits(t, PutEntry(k, v))))
  {
    EditIsOnlyStore(s, c, cl', t, PutEntry(k, v));
    TallyWrite(Replay(db0, h.log), h, s, Apply(s, c, cl', Edits(t, PutEntry(k, v))), c, cl', t, k, v);
  }

  /** Client `c` owns exactly the tables its release has not processed yet. */
  ghost predicate OwnsTodo(s: State, c: ClientId) {
    && c in s.clients && s.clients[c].pc.Releasing?
    && forall x | x in s.tables :: s.tables[x].owner == Some(c) <==> x in s.clients[c].pc.todo
  }

  lemma ReleaseOwns(s: State, c: ClientId)
    requires LockInv(s) && c in s.clients && s.clients[c].pc.Releasing?
    ensures OwnsTodo(s, c) && OwnersExist(s)
    ensures forall x | x in s.clients[c].pc.todo :: x in s.tables
  {
    assert Held(s.clients[c]) == s.clients[c].pc.todo;
  }

  lemma ReleaseUnlockFaithful(db0: Db, h: Hist, s: State, c: ClientId, cl': Client, t: TableId)
    requires Faithful(db0, h, s) && OwnersExist(s) && OwnsTodo(s, c) && t in s.tables
    requires var pc := s.clients[c].pc;
             pc.stage == Some(t) && t in pc.todo && cl' == s.clients[c].(pc := Releasing(pc.commit, pc.todo - {t}, None, pc.ending))
    ensures Faithful(db0, h, Apply(s, c, cl', Unlocks(t)))
  {
    ReleasePhases(s, c, cl', t);
    LockIsOnlyOwner(s, c, cl', t);
    TallyUnlock(Replay(db0, h.log), h, s, Apply(s, c, cl', Unlocks(t)), c, cl', t);
  }

  lemma ReleaseStatus(s: State, c: ClientId, t: TableId)
    requires c in s.clients && t in s.tables && s.tables[t].owner == Some(c)
    requires s.clients[c].pc.Releasing? && s.clients[c].pc.stage == None
    ensures Status(s, t) == if s.clients[c].pc.commit then CommitDue else RollbackDue
  {
  }

  lemma ReleaseEditFaithful(db0: Db, h: Hist, s: State, c: ClientId, cl': Client, t: TableId, e: Edit)
    requires Faithful(db0, h, s) && OwnersExist(s) && OwnsTodo(s, c) && t in s.tables
    requires var pc := s.clients[c].pc;
             && pc.stage == None && t in pc.todo && e == (if pc.commit then CommitAll else RollbackAll)
             && cl' == s.clients[c].(pc := Releasing(pc.commit, pc.todo, Some(t), pc.ending))
    ensures Faithful(db0, h, Apply(s, c, cl', Edits(t, e)))
  {
    ReleaseStatus(s, c, t);
    ReleasePhases(s, c, cl', t);
    EditIsOnlyStore(s, c, cl', t, e);
    TallyEdit(Replay(db0, h.log), h, s, Apply(s, c, cl', Edits(t, e)), c, cl', t, e);
  }

  lemma ReleasingIsSerial(db0: Db, h: Hist, s: State, c: ClientId, pick: nat)
    requires Ready(db0, h, s, c, pick) && s.clients[c].pc.Releasing?
    ensures ResumeIsSerial(db0, h, s, c, pick)
  {
    var pc := s.clients[c].pc;
    assert ClientOk(s, s.clients[c]);
    ReleaseOwns(s, c);
    var cl', e := ReleasingMove(h, s, c, pick);
    if pc.stage.Some? {
      ReleaseUnlockFaithful(db0, h, s, c, cl', pc.stage.value);
    } else if pc.todo == {} {
      QuietIsOnlyClient(s, c, cl', Nothing);
      ReleaseEnds(Replay(db0, h.log), h, s, Apply(s, c, cl', Nothing), c, cl');
    } else {
      ReleaseEditFaithful(db0, h, s, c, cl', pick, if pc.commit then CommitAll else RollbackAll);
    }
    ByParts(db0, h, s, c, pick, cl', e, h);
  }

  /** What a step of a release does; it records nothing. */
  lemma ReleasingMove(h: Hist, s: State, c: ClientId, pick: nat) returns (cl': Client, e: Effect)
    requires c in s.clients && s.clients[c].pc.Releasing?
    ensures Resume(Line433Dropped, s, s.clients[c], pick) == (cl', e) && Recorded(h, s, c, cl') == h
    ensures var cl, pc := s.clients[c], s.clients[c].pc;
            if pc.stage.Some? then
              cl' == cl.(pc := Releasing(pc.commit, pc.todo - {pc.stage.value}, None, pc.ending)) && e == Unlocks(pc.stage.value)
            else if pc.todo == {} then cl' == Finish(cl, pc.ending) && e == Nothing
            else
              && cl' == cl.(pc := Releasing(pc.commit, pc.todo, Some(pick), pc.ending))
              && e == Edits(pick, if pc.commit then CommitAll else RollbackAll)
  {
    var m := Resume(Line433Dropped, s, s.clients[c], pick);
    cl', e := m.0, m.1;
  }

  /** A release that has processed all its tables ends without further effect. */
  lemma ReleaseEnds(db: Db, h: Hist, s: State, s': State, c: ClientId, cl: Client)
    requires SerialInv(db, h, s) && LockInv(s) && c in s.clients && !IsOpen(s.clients[c]) && !IsOpen(cl)
    requires Held(s.clients[c]) == {} && OnlyClient(s, s', c, cl)
    ensures SerialInv(db, h, s')
  {
    OwnsNothing(s, c);
    forall t | t in s'.tables ensures TableTallies(db, h, s', t) {
      BystanderTable(db, db, h, h, s, s', c, t);
    }
    forall d | d in h.open ensures OpenAgrees(db, h, s', d) {
      OpenFrame(db, db, h, h, s, s', d);
    }
  }

  predicate AsideFromTables(cl: Client, cl': Client) {
    InCreate(cl.pc) && (InCreate(cl'.pc) || cl'.pc == Idle) && cl'.inTx == cl.inTx && cl'.locked == cl.locked
  }

  lemma AsideSamePhases(s: State, c: ClientId, cl': Client)
    requires c in s.clients && AsideFromTables(s.clients[c], cl')
    ensures SamePhases(s, c, cl') && IsOpen(cl') == IsOpen(s.clients[c])
  {
  }

  lemma CreateQuietFaithful(db0: Db, h: Hist, s: State, c: ClientId, cl': Client, e: Effect)
    requires Faithful(db0, h, s) && OwnersExist(s) && c in s.clients && AsideFromTables(s.clients[c], cl')
    requires e.Nothing? || e.LocksServer? || e.UnlocksServer?
    ensures Faithful(db0, h, Apply(s, c, cl', e))
  {
    QuietIsOnlyClient(s, c, cl', e);
    AsideSamePhases(s, c, cl');
    TallyQuiet(Replay(db0, h.log), h, h, s, Apply(s, c, cl', e), c, cl');
  }

  lemma CreateRefusedFaithful(db0: Db, h: Hist, s: State, c: ClientId, cl': Client, n: string)
    requires Faithful(db0, h, s) && OwnersExist(s) && c in s.clients && AsideFromTables(s.clients[c], cl')
    requires n in s.registry
    ensures Faithful(db0, h.(log := h.log + [Create(c, n, false)]), Apply(s, c, cl', Nothing))
  {
    QuietIsOnlyClient(s, c, cl', Nothing);
    AsideSamePhases(s, c, cl');
    IdleUnit(db0, h, Create(c, n, false), s, Apply(s, c, cl', Nothing), c, cl');
  }

  lemma CreateWaitIsSerial(db0: Db, h: Hist, s: State, c: ClientId, pick: nat)
    requires Ready(db0, h, s, c, pick) && s.clients[c].pc.CreateWait?
    ensures ResumeIsSerial(db0, h, s, c, pick)
  {
    var cl := s.clients[c];
    var cl' := cl.(pc := CreateFind(cl.pc.name));
    OwnersDoExist(s);
    CreateQuietFaithful(db0, h, s, c, cl', LocksServer);
    ByParts(db0, h, s, c, pick, cl', LocksServer, h);
  }

  lemma CreateFindMove(h: Hist, s: State, c: ClientId, pick: nat) returns (cl': Client)
    requires c in s.clients && s.clients[c].pc.CreateFind?
    ensures var n := s.clients[c].pc.name;
            && cl' == s.clients[c].(pc := if n in s.registry then CreateUnlock(true) else CreateInsert(n))
            && Resume(Line433Dropped, s, s.clients[c], pick) == (cl', Nothing)
            && Recorded(h, s, c, cl') == if n in s.registry then h.(log := h.log + [Create(c, n, false)]) else h
  {
    cl' := Resume(Line433Dropped, s, s.clients[c], pick).0;
  }

  lemma CreateFindIsSerial(db0: Db, h: Hist, s: State, c: ClientId, pick: nat)
    requires Ready(db0, h, s, c, pick) && s.clients[c].pc.CreateFind?
    ensures ResumeIsSerial(db0, h, s, c, pick)
  {
    var n := s.clients[c].pc.name;
    OwnersDoExist(s);
    var cl' := CreateFindMove(h, s, c, pick);
    if n in s.registry {
      CreateRefusedFaithful(db0, h, s, c, cl', n);
    } else {
      CreateQuietFaithful(db0, h, s, c, cl', Nothing);
    }
    ByParts(db0, h, s, c, pick, cl', Nothing, Recorded(h, s, c, cl'));
  }

  lemma CreateInsertFaithful(db0: Db, h: Hist, s: State, c: ClientId, cl': Client, n: string, id: TableId)
    requires Faithful(db0, h, s) && OwnersExist(s) && RegistryOk(s) && c in s.clients && AsideFromTables(s.clients[c], cl')
    requires n !in s.registry && id !in s.tables
    ensures Faithful(db0, h.(log := h.log + [Create(c, n, true)]), Apply(s, c, cl', Inserts(n, id)))
  {
    var u := Create(c, n, true);
    ReplayAppend(db0, h.log, u);
    AsideSamePhases(s, c, cl');
    TallyInsert(Replay(db0, h.log), h, h.(log := h.log + [u]), s, Apply(s, c, cl', Inserts(n, id)), c, cl', n, id);
  }

  lemma CreateInsertIsSerial(db0: Db, h: Hist, s: State, c: ClientId, pick: nat)
    requires Ready(db0, h, s, c, pick) && s.clients[c].pc.CreateInsert?
    ensures ResumeIsSerial(db0, h, s, c, pick)
  {
    var n := s.clients[c].pc.name;
    assert ClientOk(s, s.clients[c]);
    OwnersDoExist(s);
    var cl' := CreateInsertMove(h, s, c, pick);
    CreateInsertFaithful(db0, h, s, c, cl', n, pick);
    ByParts(db0, h, s, c, pick, cl', Inserts(n, pick), h.(log := h.log + [Create(c, n, true)]));
  }

  lemma CreateInsertMove(h: Hist, s: State, c: ClientId, pick: nat) returns (cl': Client)
    requires c in s.clients && s.clients[c].pc.CreateInsert?
    ensures var cl, n := s.clients[c], s.clients[c].pc.name;
            && cl' == cl.(pc := CreateUnlock(false), sent := cl.sent + [Okay])
            && Resume(Line433Dropped, s, cl, pick) == (cl', Inserts(n, pick))
            && Recorded(h, s, c, cl') == h.(log := h.log + [Create(c, n, true)])
  {
    cl' := Resume(Line433Dropped, s, s.clients[c], pick).0;
  }

  lemma CreateUnlockIsSerial(db0: Db, h: Hist, s: State, c: ClientId, pick: nat)
    requires Ready(db0, h, s, c, pick) && s.clients[c].pc.CreateUnlock?
    ensures ResumeIsSerial(db0, h, s, c, pick)
  {
    var cl := s.clients[c];
    assert ClientOk(s, cl);
    OwnersDoExist(s);
    var cl' := CreateUnlockMove(h, s, c, pick);
    QuietIsOnlyClient(s, c, cl', UnlocksServer);
    if cl.pc.failed && cl.inTx {
      AbortPoint(db0, h, None, s, Apply(s, c, cl', UnlocksServer), c, cl');
    } else {
      AsideUnlocked(s, c, cl');
      TallyQuiet(Replay(db0, h.log), h, h, s, Apply(s, c, cl', UnlocksServer), c, cl');
    }
    ByParts(db0, h, s, c, pick, cl', UnlocksServer, Recorded(h, s, c, cl'));
  }

  lemma CreateUnlockMove(h: Hist, s: State, c: ClientId, pick: nat) returns (cl': Client)
    requires c in s.clients && s.clients[c].pc.CreateUnlock?
    ensures var cl, failed := s.clients[c], s.clients[c].pc.failed;
            && cl' == (if failed then Throw(cl, TableExists) else cl.(pc := Idle))
            && Resume(Line433Dropped, s, cl, pick) == (cl', UnlocksServer)
            && Recorded(h, s, c, cl') == if failed && cl.inTx then Bound(h, c, true, cl') else h
  {
    cl' := Resume(Line433Dropped, s, s.clients[c], pick).0;
  }

  lemma AsideUnlocked(s: State, c: ClientId, cl': Client)
    requires c in s.clients && s.clients[c].pc.CreateUnlock? && (!s.clients[c].inTx ==> s.clients[c].locked == {})
    requires cl' == if s.clients[c].pc.failed then Throw(s.clients[c], TableExists) else s.clients[c].(pc := Idle)
    requires !(s.clients[c].pc.failed && s.clients[c].inTx)
    ensures SamePhases(s, c, cl') && IsOpen(cl') == IsOpen(s.clients[c]) && cl'.locked == s.clients[c].locked
  {
  }

  lemma EveryResumeIsSerial(db0: Db, h: Hist, s: State, c: ClientId, pick: nat)
    requires Ready(db0, h, s, c, pick)
    ensures ResumeIsSerial(db0, h, s, c, pick)
  {
    assert ClientOk(s, s.clients[c]);
    match s.clients[c].pc
    case AutoWait(_, _) => AutoWaitIsSerial(db0, h, s, c, pick);
    case AutoRun(GetOp(_), _) => AutoGetIsSerial(db0, h, s, c, pick);
    case AutoRun(SetOp(_), _) => AutoSetIsSerial(db0, h, s, c, pick);
    case AutoCommit(_) => AutoCommitIsSerial(db0, h, s, c, pick);
    case AutoUnlock(_, _) => AutoUnlockIsSerial(db0, h, s, c, pick);
    case TxAcquire(_, _) => TxAcquireIsSerial(db0, h, s, c, pick);
    case TxRun(GetOp(_), _) => TxGetIsSerial(db0, h, s, c, pick);
    case TxRun(SetOp(_), _) => TxSetIsSerial(db0, h, s, c, pick);
    case Releasing(_, _, _, _) => ReleasingIsSerial(db0, h, s, c, pick);
    case CreateWait(_) => CreateWaitIsSerial(db0, h, s, c, pick);
    case CreateFind(_) => CreateFindIsSerial(db0, h, s, c, pick);
    case CreateInsert(_) => CreateInsertIsSerial(db0, h, s, c, pick);
    case CreateUnlock(_) => CreateUnlockIsSerial(db0, h, s, c, pick);
  }

  // ----- every run --------------------------------------------------------

  lemma EofIsSerial(db0: Db, h: Hist, s: State, c: ClientId)
    requires LockInv(s) && Faithful(db0, h, s) && c in s.clients && s.clients[c].pc == Idle
    ensures var cl := Abort(s.clients[c], Ending(None, true));
            Faithful(db0, Bound(h, c, IsOpen(s.clients[c]), cl), Apply(s, c, cl, Nothing))
  {
    var old_ := s.clients[c];
    var cl := Abort(old_, Ending(None, true));
    assert ClientOk(s, old_);
    if old_.inTx {
      AbortPoint(db0, h, None, s, Apply(s, c, cl, Nothing), c, cl);
    } else {
      OwnersDoExist(s);
      OwnsNothing(s, c);
      TallyQuiet(Replay(db0, h.log), h, h, s, Apply(s, c, cl, Nothing), c, cl);
    }
  }

  lemma StepIsSerial(db0: Db, h: Hist, s: State, a: Action)
    requires LockInv(s) && Faithful(db0, h, s) && Enabled(s, a)
    ensures Faithful(db0, Record(Line433Dropped, h, s, a), Step(Line433Dropped, s, a))
  {
    match a.input
    case Connect =>
      OwnersDoExist(s);
      OwnsNothing(s, a.c);
      TallyQuiet(Replay(db0, h.log), h, h, s, Step(Line433Dropped, s, a), a.c, NEW_CLIENT);
    case Request(text) =>
      RequestIsSerial(db0, h, s, a.c, Parse(text));
    case Eof =>
      EofIsSerial(db0, h, s, a.c);
    case Go(pick) =>
      EveryResumeIsSerial(db0, h, s, a.c, pick);
  }

  lemma SerialAtRest(s: State)
    requires AtRest(s)
    ensures Faithful(CommittedDb(s), Hist([], map[]), s)
  {
  }

  lemma SameRecord(h: Hist, s: State, a: Action)
    requires Enabled(s, a) && !Misses(s, a)
    ensures Record(AsWritten, h, s, a) == Record(Line433Dropped, h, s, a)
  {
    SameStep(s, a);
  }

  lemma {:induction false} RunIsFaithful(v: Variant, s: State, run: seq<Action>)
    requires AtRest(s) && Sound(v, s, run)
    ensures Faithful(CommittedDb(s), HistoryOf(v, s, run), After(v, s, run))
  {
    if run == [] {
      SerialAtRest(s);
    } else {
      var n := |run| - 1;
      SoundPrefix(v, s, run);
      RunIsFaithful(v, s, run[..n]);
      LocksOnEveryRun(v, s, run[..n]);
      var y, h := After(v, s, run[..n]), HistoryOf(v, s, run[..n]);
      StepIsSerial(CommittedDb(s), h, y, run[n]);
      if v == AsWritten {
        SameStep(y, run[n]);
        SameRecord(h, y, run[n]);
      }
    }
  }

  /** No client is between its commit point and the commit of its last table. */
  predicate NoCommitDue(s: State) {
    forall t | t in s.tables :: Status(s, t) != CommitDue
  }

  /** Serializability. Take any number of clients, any requests, any interleaving
      down to single lock operations, starting at rest. Replaying the recorded
      history one whole unit at a time, in the order of commit and abort points,
      every read, lookup and CREATE has the outcome it had in the run, and the
      replayed database is the committed content of the tables, except for tables
      whose committed transaction has yet to reach them in its release; their
      entry is what the pending `commit_changes` will make of them. */
  lemma {:induction false} EveryRunIsSerializable(v: Variant, s: State, run: seq<Action>)
    requires AtRest(s) && Sound(v, s, run)
    ensures var z, log, db := After(v, s, run), HistoryOf(v, s, run).log, CommittedDb(s);
            && ReplayAgrees(db, log)
            && Replay(db, log).Keys == z.registry.Keys
            && (forall t | t in z.tables :: z.tables[t].name in Replay(db, log))
            && (forall t | t in z.tables && Status(z, t) != CommitDue ::
                  Replay(db, log)[z.tables[t].name] == z.tables[t].store.committed)
            && (forall t | t in z.tables && Status(z, t) == CommitDue ::
                  Replay(db, log)[z.tables[t].name] == Commit(z.tables[t].store).committed)
            && (NoCommitDue(z) ==> Replay(db, log) == CommittedDb(z))
  {
    RunIsFaithful(v, s, run);
    LocksOnEveryRun(v, s, run);
    TalliesRead(Replay(CommittedDb(s), HistoryOf(v, s, run).log), HistoryOf(v, s, run), After(v, s, run));
  }

  lemma TalliesRead(db: Db, h: Hist, z: State)
    requires SerialInv(db, h, z) && RegistryOk(z)
    ensures forall t | t in z.tables :: z.tables[t].name in db
    ensures forall t | t in z.tables && Status(z, t) != CommitDue :: db[z.tables[t].name] == z.tables[t].store.committed
    ensures forall t | t in z.tables && Status(z, t) == CommitDue :: db[z.tables[t].name] == Commit(z.tables[t].store).committed
    ensures NoCommitDue(z) ==> db == CommittedDb(z)
  {
    assert forall t | t in z.tables :: TableTallies(db, h, z, t);
  }

  /** Whenever all clients are idle outside transactions, the server is at rest
      again, so that the theorems apply to everything that follows as well. */
  lemma {:induction false} IdleIsAtRest(v: Variant, s: State, run: seq<Action>)
    requires AtRest(s) && Sound(v, s, run)
    requires forall c | c in After(v, s, run).clients ::
               var cl := After(v, s, run).clients[c]; (cl.pc == Idle || cl.pc == Closed) && !cl.inTx
    ensures AtRest(After(v, s, run))
  {
    RunIsFaithful(v, s, run);
    LocksOnEveryRun(v, s, run);
    var z, h := After(v, s, run), HistoryOf(v, s, run);
    RestFromInvariants(Replay(CommittedDb(s), h.log), h, z);
  }

  lemma NoneIsHeld(z: State, t: TableId)
    requires LockInv(z) && t in z.tables
    requires forall c | c in z.clients :: (z.clients[c].pc == Idle || z.clients[c].pc == Closed) && !z.clients[c].inTx
    ensures z.tables[t].owner == None
  {
    assert forall c | c in z.clients :: ClientOk(z, z.clients[c]) && Held(z.clients[c]) == {};
  }

  lemma FreeShowsNothing(db: Db, h: Hist, z: State, t: TableId)
    requires t in z.tables && z.tables[t].owner == None && TableTallies(db, h, z, t)
    ensures Shows(z.tables[t].store, map[])
  {
  }

  lemma RestFromInvariants(db: Db, h: Hist, z: State)
    requires SerialInv(db, h, z) && LockInv(z)
    requires forall c | c in z.clients :: (z.clients[c].pc == Idle || z.clients[c].pc == Closed) && !z.clients[c].inTx
    ensures AtRest(z)
  {
    forall t | t in z.tables ensures z.tables[t].owner == None && Shows(z.tables[t].store, map[]) {
      assert TableTallies(db, h, z, t);
      NoneIsHeld(z, t);
      FreeShowsNothing(db, h, z, t);
    }
  }
}
