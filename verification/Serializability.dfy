/** The proof that every run is serializable, step by step: each lemma below takes
    one kind of step and shows that the recorded history keeps replaying to the
    state of the tables. */
module Serializability {
  import opened Engine
  import opened History
  import opened Holdings
  import opened Locks
  import opened Serial
  import opened Tables
  import opened Wrappers

  function ClientAt(s: State, c: ClientId): Client {
    if c in s.clients then s.clients[c] else NEW_CLIENT
  }

  /** The state after a step of client `c` that leaves tables and registry alone. */
  predicate OnlyClient(s: State, s': State, c: ClientId, cl: Client) {
    s'.tables == s.tables && s'.registry == s.registry && s'.clients == s.clients[c := cl]
  }

  /** Client `c`'s tables stand where they stood. */
  predicate SamePhases(s: State, c: ClientId, cl: Client) {
    forall t | t in s.tables && s.tables[t].owner == Some(c) ::
      c in s.clients && PhaseOf(cl, t) == PhaseOf(s.clients[c], t)
  }

  lemma StatusKept(s: State, s': State, c: ClientId, cl: Client, t: TableId)
    requires OnlyClient(s, s', c, cl) && SamePhases(s, c, cl) && t in s.tables
    requires s.tables[t].owner.Some? ==> s.tables[t].owner.value in s.clients
    ensures Status(s', t) == Status(s, t)
  {
  }

  predicate OwnersExist(s: State) {
    forall t | t in s.tables && s.tables[t].owner.Some? :: s.tables[t].owner.value in s.clients
  }

  /** A step that leaves the serial database, the open transactions and the
      standing of all tables as they are. */
  lemma TallyQuiet(db: Db, h: Hist, h': Hist, s: State, s': State, c: ClientId, cl: Client)
    requires SerialInv(db, h, s) && OwnersExist(s)
    requires OnlyClient(s, s', c, cl) && SamePhases(s, c, cl)
    requires h'.open == h.open && IsOpen(cl) == IsOpen(ClientAt(s, c)) && cl.locked == ClientAt(s, c).locked
    ensures SerialInv(db, h', s')
  {
    forall t | t in s'.tables ensures TableTallies(db, h', s', t) {
      StatusKept(s, s', c, cl, t);
      assert TableTallies(db, h, s, t);
    }
    forall d | d in h'.open ensures OpenAgrees(db, h', s', d) {
      assert OpenAgrees(db, h, s, d);
      assert NamesOf(s', s'.clients[d].locked) == NamesOf(s, s.clients[d].locked);
    }
  }

  // ----- bystanders -------------------------------------------------------

  /** Everything about clients other than `c` is the same before and after. */
  ghost predicate OthersSame(h: Hist, h': Hist, s: State, s': State, c: ClientId) {
    && (forall d | d != c :: d in s'.clients <==> d in s.clients)
    && (forall d | d != c && d in s.clients :: s'.clients[d] == s.clients[d])
    && (forall d | d != c :: d in h'.open <==> d in h.open)
    && (forall d | d != c && d in h.open :: h'.open[d] == h.open[d])
  }

  lemma BystanderTable(db: Db, db': Db, h: Hist, h': Hist, s: State, s': State, c: ClientId, t: TableId)
    requires OthersSame(h, h', s, s', c)
    requires t in s.tables && t in s'.tables && s'.tables[t] == s.tables[t]
    requires s.tables[t].owner != Some(c)
    requires TableTallies(db, h, s, t)
    requires s.tables[t].name in db' && db'[s.tables[t].name] == db[s.tables[t].name]
    ensures TableTallies(db', h', s', t)
  {
    assert Status(s', t) == Status(s, t);
    assert PendingAt(h', s'.tables[t]) == PendingAt(h, s.tables[t]);
  }

  predicate NamesKept(s: State, s': State, ts: set<TableId>) {
    forall t | t in ts && t in s.tables :: t in s'.tables && s'.tables[t].name == s.tables[t].name
  }

  lemma OpenFrame(db: Db, db': Db, h: Hist, h': Hist, s: State, s': State, d: ClientId)
    requires d in h.open && d in h'.open && h'.open[d] == h.open[d]
    requires d in s.clients && d in s'.clients && s.clients[d].locked <= s'.clients[d].locked
    requires OpenAgrees(db, h, s, d)
    requires NamesKept(s, s', s.clients[d].locked)
    requires SameRows(db, db', NamesOf(s, s.clients[d].locked))
    ensures OpenAgrees(db', h', s', d)
  {
    OpsAgreeFrame(db, db', h.open[d], NamesOf(s, s.clients[d].locked));
    assert NamesOf(s, s.clients[d].locked) <= NamesOf(s', s'.clients[d].locked);
  }

  // ----- a transaction begins, reads, writes ------------------------------

  /** BEGIN opens an empty record; the client holds nothing yet. */
  lemma TallyBegin(db: Db, h: Hist, s: State, s': State, c: ClientId, cl: Client)
    requires SerialInv(db, h, s) && OwnersExist(s)
    requires OnlyClient(s, s', c, cl) && IsOpen(cl) && cl.locked == {}
    requires c in s.clients && !IsOpen(s.clients[c])
    requires forall t | t in s.tables :: s.tables[t].owner != Some(c)
    ensures SerialInv(db, h.(open := h.open[c := []]), s')
  {
    var h' := h.(open := h.open[c := []]);
    forall t | t in s'.tables ensures TableTallies(db, h', s', t) {
      BystanderTable(db, db, h, h', s, s', c, t);
    }
    forall d | d in h'.open ensures OpenAgrees(db, h', s', d) {
      if d != c {
        OpenFrame(db, db, h, h', s, s', d);
      }
    }
  }

  lemma OpenRead(db: Db, h: Hist, s: State, c: ClientId, t: TableId, k: string)
    requires SerialInv(db, h, s)
    requires c in h.open && t in s.tables && t in s.clients[c].locked
    requires s.tables[t].owner == Some(c) && Status(s, t) == InUse
    ensures var tb := s.tables[t];
            OpAgrees(db, h.open[c], Read(tb.name, k, Fetch(tb.store, k)))
  {
    var tb := s.tables[t];
    assert TableTallies(db, h, s, t);
    ShownRead(tb.store, PendingAt(h, tb), k);
  }

  /** Names of tables do not change. */
  predicate SameNames(s: State, s': State) {
    s'.tables.Keys == s.tables.Keys && forall t | t in s.tables :: s'.tables[t].name == s.tables[t].name
  }

  function Extended(h: Hist, c: ClientId, op: Op): Hist
    requires c in h.open
  {
    h.(open := h.open[c := h.open[c] + [op]])
  }

  /** An operation joins its transaction's record. */
  lemma RecordGrows(db: Db, h: Hist, s: State, s': State, c: ClientId, cl: Client, op: Op, d: ClientId)
    requires SerialInv(db, h, s) && SameNames(s, s')
    requires s'.clients == s.clients[c := cl]
    requires c in h.open && cl.locked == s.clients[c].locked
    requires !op.Absent? && op.table in NamesOf(s, cl.locked) && OpAgrees(db, h.open[c], op)
    requires d in h.open
    ensures OpenAgrees(db, Extended(h, c, op), s', d)
  {
    assert OpenAgrees(db, h, s, d);
    if d == c {
      OpsAppend(db, h.open[c], op);
      assert NamesOf(s', cl.locked) == NamesOf(s, s.clients[c].locked);
      WorksOnAppend(h.open[c], op, NamesOf(s', cl.locked));
    } else {
      OpenFrame(db, db, h, Extended(h, c, op), s, s', d);
    }
  }

  lemma OpensGrow(db: Db, h: Hist, s: State, s': State, c: ClientId, cl: Client, op: Op)
    requires SerialInv(db, h, s) && SameNames(s, s')
    requires s'.clients == s.clients[c := cl]
    requires c in h.open && cl.locked == s.clients[c].locked
    requires !op.Absent? && op.table in NamesOf(s, cl.locked) && OpAgrees(db, h.open[c], op)
    ensures forall d | d in h.open :: OpenAgrees(db, Extended(h, c, op), s', d)
  {
    forall d | d in h.open ensures OpenAgrees(db, Extended(h, c, op), s', d) {
      RecordGrows(db, h, s, s', c, cl, op, d);
    }
  }

  lemma PendingExtended(h: Hist, c: ClientId, op: Op, tb: TableRecord)
    requires c in h.open
    ensures PendingAt(Extended(h, c, op), tb) ==
              if tb.owner == Some(c) && op.Write? && op.table == tb.name then PendingAt(h, tb)[op.key := op.value]
              else PendingAt(h, tb)
  {
    OverlayAppend(h.open[c], op, tb.name);
  }

  lemma ReadTallies(db: Db, h: Hist, s: State, s': State, c: ClientId, cl: Client, op: Op, u: TableId)
    requires u in s.tables && TableTallies(db, h, s, u) && OwnersExist(s)
    requires OnlyClient(s, s', c, cl) && SamePhases(s, c, cl)
    requires c in h.open && op.Read?
    ensures TableTallies(db, Extended(h, c, op), s', u)
  {
    StatusKept(s, s', c, cl, u);
    PendingExtended(h, c, op, s.tables[u]);
  }

  /** A GET inside a transaction joins its record and changes nothing else. */
  lemma TallyRead(db: Db, h: Hist, s: State, s': State, c: ClientId, cl: Client, op: Op)
    requires SerialInv(db, h, s) && OwnersExist(s)
    requires OnlyClient(s, s', c, cl) && SamePhases(s, c, cl)
    requires c in h.open && IsOpen(cl) && cl.locked == s.clients[c].locked
    requires op.Read? && op.table in NamesOf(s, cl.locked) && OpAgrees(db, h.open[c], op)
    ensures SerialInv(db, Extended(h, c, op), s')
  {
    forall u | u in s'.tables ensures TableTallies(db, Extended(h, c, op), s', u) {
      ReadTallies(db, h, s, s', c, cl, op, u);
    }
    OpensGrow(db, h, s, s', c, cl, op);
  }

  /** The tables after an edit of table `t`. */
  predicate OnlyStore(s: State, s': State, c: ClientId, cl: Client, t: TableId, e: Edit) {
    && t in s.tables
    && s'.tables == s.tables[t := s.tables[t].(store := Edited(s.tables[t].store, e))]
    && s'.registry == s.registry
    && s'.clients == s.clients[c := cl]
  }

  /** A SET inside a transaction: the proposal and the record grow together. */
  lemma TallyWrite(db: Db, h: Hist, s: State, s': State, c: ClientId, cl: Client, t: TableId, k: string, v: string)
    requires SerialInv(db, h, s) && OwnersExist(s) && RegistryOk(s)
    requires OnlyStore(s, s', c, cl, t, PutEntry(k, v)) && SamePhases(s, c, cl)
    requires c in h.open && IsOpen(cl) && cl.locked == s.clients[c].locked
    requires t in cl.locked && s.tables[t].owner == Some(c) && Status(s, t) == InUse
    ensures SerialInv(db, Extended(h, c, Write(s.tables[t].name, k, v)), s')
  {
    var op := Write(s.tables[t].name, k, v);
    assert TableTallies(db, h, s, t);
    EditKeepsNames(s, s', c, cl, t, PutEntry(k, v));
    AllWriteTallies(db, h, s, s', c, cl, t, k, v);
    OpensGrow(db, h, s, s', c, cl, op);
  }

  lemma WriteTallies(db: Db, h: Hist, s: State, s': State, c: ClientId, cl: Client, t: TableId, k: string, v: string, u: TableId)
    requires u in s.tables && TableTallies(db, h, s, u) && OwnersExist(s) && RegistryOk(s)
    requires OnlyStore(s, s', c, cl, t, PutEntry(k, v)) && SamePhases(s, c, cl)
    requires c in h.open && s.tables[t].owner == Some(c) && Status(s, t) == InUse
    ensures TableTallies(db, Extended(h, c, Write(s.tables[t].name, k, v)), s', u)
  {
    PendingExtended(h, c, Write(s.tables[t].name, k, v), s.tables[u]);
    assert PendingAt(h, s'.tables[u]) == PendingAt(h, s.tables[u]);
    PendingExtended(h, c, Write(s.tables[t].name, k, v), s'.tables[u]);
    assert Status(s', u) == Status(s, u);
    if u == t {
      ShownPut(s.tables[t].store, PendingAt(h, s.tables[t]), k, v);
    }
  }

  lemma EditKeepsNames(s: State, s': State, c: ClientId, cl: Client, t: TableId, e: Edit)
    requires OnlyStore(s, s', c, cl, t, e)
    ensures SameNames(s, s')
    ensures t in cl.locked ==> s.tables[t].name in NamesOf(s, cl.locked)
  {
  }

  lemma AllWriteTallies(db: Db, h: Hist, s: State, s': State, c: ClientId, cl: Client, t: TableId, k: string, v: string)
    requires OwnersExist(s) && RegistryOk(s)
    requires forall u | u in s.tables :: TableTallies(db, h, s, u)
    requires OnlyStore(s, s', c, cl, t, PutEntry(k, v)) && SamePhases(s, c, cl)
    requires c in h.open && s.tables[t].owner == Some(c) && Status(s, t) == InUse
    ensures forall u | u in s'.tables :: TableTallies(db, Extended(h, c, Write(s.tables[t].name, k, v)), s', u)
  {
    forall u | u in s'.tables ensures TableTallies(db, Extended(h, c, Write(s.tables[t].name, k, v)), s', u) {
      WriteTallies(db, h, s, s', c, cl, t, k, v, u);
    }
  }

  // ----- autocommit -------------------------------------------------------

  function WithEntry(db: Db, name: string, k: string, v: string): Db
    requires name in db
  {
    db[name := db[name][k := v]]
  }

  /** An autocommit SET takes its place in the history while the lock is held,
      one step before its commit. */
  lemma TallyAutoWrite(db: Db, h: Hist, h': Hist, s: State, s': State, c: ClientId, cl: Client, t: TableId, k: string, v: string)
    requires SerialInv(db, h, s) && LockInv(s)
    requires OnlyStore(s, s', c, cl, t, PutEntry(k, v))
    requires c in s.clients && Held(s.clients[c]) == {t} && Status(s, t) == Clean && PhaseOf(cl, t) == CommitDue
    requires h'.open == h.open && !IsOpen(cl) && !IsOpen(s.clients[c])
    requires s.tables[t].name in db
    ensures SerialInv(WithEntry(db, s.tables[t].name, k, v), h', s')
  {
    var db' := WithEntry(db, s.tables[t].name, k, v);
    forall u | u in s'.tables ensures TableTallies(db', h', s', u) {
      AutoWriteTallies(db, h, h', s, s', c, cl, t, k, v, u);
    }
    AutoWriteOpens(db, h, h', s, s', c, cl, t, k, v);
  }

  lemma AutoWriteOpens(db: Db, h: Hist, h': Hist, s: State, s': State, c: ClientId, cl: Client, t: TableId, k: string, v: string)
    requires SerialInv(db, h, s) && LockInv(s)
    requires OnlyStore(s, s', c, cl, t, PutEntry(k, v))
    requires c in s.clients && Held(s.clients[c]) == {t} && h'.open == h.open && !IsOpen(s.clients[c])
    requires s.tables[t].name in db
    ensures forall d | d in h'.open :: OpenAgrees(WithEntry(db, s.tables[t].name, k, v), h', s', d)
  {
    var db' := WithEntry(db, s.tables[t].name, k, v);
    forall d | d in h'.open ensures OpenAgrees(db', h', s', d) {
      NotMine(s, c, d, t);
      OpenFrame(db, db', h, h', s, s', d);
    }
  }

  lemma AutoWriteTallies(db: Db, h: Hist, h': Hist, s: State, s': State, c: ClientId, cl: Client, t: TableId, k: string, v: string, u: TableId)
    requires SerialInv(db, h, s) && LockInv(s)
    requires OnlyStore(s, s', c, cl, t, PutEntry(k, v))
    requires c in s.clients && Held(s.clients[c]) == {t} && Status(s, t) == Clean && PhaseOf(cl, t) == CommitDue
    requires h'.open == h.open && s.tables[t].name in db && u in s.tables
    ensures TableTallies(WithEntry(db, s.tables[t].name, k, v), h', s', u)
  {
    assert TableTallies(db, h, s, u);
    if u == t {
      assert s.tables[t].owner == Some(c);
      CleanPut(s.tables[t].store, k, v);
    } else {
      assert s.tables[u].owner != Some(c);
      assert s.tables[u].name != s.tables[t].name;
      BystanderTable(db, WithEntry(db, s.tables[t].name, k, v), h, h', s, s', c, u);
    }
  }

  lemma CleanPut(store: Store, k: string, v: string)
    requires Shows(store, map[])
    ensures Put(store, k, v).committed + Put(store, k, v).proposed == store.committed[k := v]
  {
    ShownPut(store, map[], k, v);
    ShownCommit(Put(store, k, v), map[k := v]);
  }

  /** A table one client holds is not among the names another has locked. */
  lemma NotMine(s: State, c: ClientId, d: ClientId, t: TableId)
    requires LockInv(s) && c in s.clients && d in s.clients && IsOpen(s.clients[d])
    requires t in Held(s.clients[c]) && c != d
    ensures s.tables[t].name !in NamesOf(s, s.clients[d].locked)
  {
    forall u | u in s.clients[d].locked && u in s.tables ensures s.tables[u].name != s.tables[t].name {
      OpenHolds(s, d);
      assert s.tables[u].owner == Some(d) && s.tables[t].owner == Some(c);
    }
  }

  lemma OpenHolds(s: State, d: ClientId)
    requires LockInv(s) && d in s.clients && IsOpen(s.clients[d])
    ensures Held(s.clients[d]) == s.clients[d].locked
  {
    assert ClientOk(s, s.clients[d]);
  }

  // ----- locking and unlocking --------------------------------------------

  /** The tables after table `t` changed hands. */
  predicate OnlyOwner(s: State, s': State, c: ClientId, cl: Client, t: TableId, o: Option<ClientId>) {
    && t in s.tables
    && s'.tables == s.tables[t := s.tables[t].(owner := o)]
    && s'.registry == s.registry
    && s'.clients == s.clients[c := cl]
  }

  /** The owner of `t` changes while `t` is clean; the client's other tables stand
      where they stood. */
  lemma OwnerTallies(db: Db, h: Hist, s: State, s': State, c: ClientId, cl: Client, t: TableId, o: Option<ClientId>, u: TableId)
    requires u in s.tables && TableTallies(db, h, s, u) && OwnersExist(s)
    requires OnlyOwner(s, s', c, cl, t, o)
    requires forall x | x in s.tables && x != t && s.tables[x].owner == Some(c) ::
               c in s.clients && PhaseOf(cl, x) == PhaseOf(s.clients[c], x)
    requires u == t ==> Tallies(db[s.tables[t].name], s.tables[t].store, Status(s', t), PendingAt(h, s'.tables[t]))
    ensures TableTallies(db, h, s', u)
  {
    if u != t {
      assert Status(s', u) == Status(s, u);
    }
  }

  lemma OpensKept(db: Db, h: Hist, s: State, s': State, c: ClientId, cl: Client)
    requires SerialInv(db, h, s) && SameNames(s, s') && s'.clients == s.clients[c := cl]
    requires IsOpen(cl) == IsOpen(ClientAt(s, c)) && ClientAt(s, c).locked <= cl.locked
    ensures forall d | d in h.open :: d in s'.clients && OpenAgrees(db, h, s', d)
  {
    forall d | d in h.open ensures OpenAgrees(db, h, s', d) {
      OpenFrame(db, db, h, h, s, s', d);
    }
  }

  lemma TallyLock(db: Db, h: Hist, s: State, s': State, c: ClientId, cl: Client, t: TableId)
    requires SerialInv(db, h, s) && OwnersExist(s) && RegistryOk(s)
    requires OnlyOwner(s, s', c, cl, t, Some(c)) && s.tables[t].owner == None
    requires c in s.clients && IsOpen(cl) == IsOpen(s.clients[c]) && s.clients[c].locked <= cl.locked
    requires t !in s.clients[c].locked
    requires PhaseOf(cl, t) == if IsOpen(cl) then InUse else Clean
    requires forall x | x in s.tables && x != t && s.tables[x].owner == Some(c) :: PhaseOf(cl, x) == PhaseOf(s.clients[c], x)
    ensures SerialInv(db, h, s')
  {
    AllLockTallies(db, h, s, s', c, cl, t);
    OwnerKeepsNames(s, s', c, cl, t, Some(c));
    OpensKept(db, h, s, s', c, cl);
    OpenersKept(h, s, s', c, cl);
  }

  lemma OpenersKept(h: Hist, s: State, s': State, c: ClientId, cl: Client)
    requires forall d :: d in h.open <==> d in s.clients && IsOpen(s.clients[d])
    requires c in s.clients && s'.clients == s.clients[c := cl] && IsOpen(cl) == IsOpen(s.clients[c])
    ensures forall d :: d in h.open <==> d in s'.clients && IsOpen(s'.clients[d])
  {
  }

  lemma AllLockTallies(db: Db, h: Hist, s: State, s': State, c: ClientId, cl: Client, t: TableId)
    requires SerialInv(db, h, s) && OwnersExist(s) && RegistryOk(s)
    requires OnlyOwner(s, s', c, cl, t, Some(c)) && s.tables[t].owner == None
    requires c in s.clients && IsOpen(cl) == IsOpen(s.clients[c]) && t !in s.clients[c].locked
    requires PhaseOf(cl, t) == if IsOpen(cl) then InUse else Clean
    requires forall x | x in s.tables && x != t && s.tables[x].owner == Some(c) :: PhaseOf(cl, x) == PhaseOf(s.clients[c], x)
    ensures forall u | u in s'.tables :: TableTallies(db, h, s', u)
  {
    LockTallies(db, h, s, s', c, cl, t);
    forall u | u in s'.tables ensures TableTallies(db, h, s', u) {
      OwnerTallies(db, h, s, s', c, cl, t, Some(c), u);
    }
  }

  lemma OwnerKeepsNames(s: State, s': State, c: ClientId, cl: Client, t: TableId, o: Option<ClientId>)
    requires OnlyOwner(s, s', c, cl, t, o)
    ensures SameNames(s, s')
  {
  }

  lemma LockTallies(db: Db, h: Hist, s: State, s': State, c: ClientId, cl: Client, t: TableId)
    requires SerialInv(db, h, s) && RegistryOk(s)
    requires OnlyOwner(s, s', c, cl, t, Some(c)) && s.tables[t].owner == None
    requires c in s.clients && IsOpen(cl) == IsOpen(s.clients[c]) && t !in s.clients[c].locked
    requires PhaseOf(cl, t) == if IsOpen(cl) then InUse else Clean
    ensures s.tables[t].name in db
    ensures Tallies(db[s.tables[t].name], s.tables[t].store, Status(s', t), PendingAt(h, s'.tables[t]))
  {
    assert TableTallies(db, h, s, t);
    if c in h.open {
      assert OpenAgrees(db, h, s, c);
      assert s.tables[t].name !in NamesOf(s, s.clients[c].locked);
      OverlayElsewhere(h.open[c], NamesOf(s, s.clients[c].locked), s.tables[t].name);
    }
  }

  lemma TallyUnlock(db: Db, h: Hist, s: State, s': State, c: ClientId, cl: Client, t: TableId)
    requires SerialInv(db, h, s) && OwnersExist(s)
    requires OnlyOwner(s, s', c, cl, t, None) && s.tables[t].owner == Some(c) && Status(s, t) == Clean
    requires c in s.clients && !IsOpen(cl) && !IsOpen(s.clients[c])
    requires forall x | x in s.tables && x != t && s.tables[x].owner == Some(c) :: PhaseOf(cl, x) == PhaseOf(s.clients[c], x)
    ensures SerialInv(db, h, s')
  {
    assert TableTallies(db, h, s, t);
    forall u | u in s'.tables ensures TableTallies(db, h, s', u) {
      OwnerTallies(db, h, s, s', c, cl, t, None, u);
    }
    OwnerKeepsNames(s, s', c, cl, t, None);
    forall d | d in h.open ensures OpenAgrees(db, h, s', d) {
      OpenFrame(db, db, h, h, s, s', d);
    }
  }

  // ----- committing and rolling back one table ----------------------------

  lemma EditTallies(db: Db, h: Hist, s: State, s': State, c: ClientId, cl: Client, t: TableId, e: Edit, u: TableId)
    requires u in s.tables && TableTallies(db, h, s, u) && OwnersExist(s)
    requires OnlyStore(s, s', c, cl, t, e) && s.tables[t].owner == Some(c) && c in s.clients
    requires (e == CommitAll && Status(s, t) == CommitDue) || (e == RollbackAll && Status(s, t) == RollbackDue)
    requires PhaseOf(cl, t) == Clean
    requires forall x | x in s.tables && x != t && s.tables[x].owner == Some(c) :: PhaseOf(cl, x) == PhaseOf(s.clients[c], x)
    ensures TableTallies(db, h, s', u)
  {
    if u == t {
      var store := s.tables[t].store;
      assert forall k | k in store.proposed :: (store.committed + store.proposed)[k] == store.proposed[k];
    } else {
      assert Status(s', u) == Status(s, u);
      assert PendingAt(h, s'.tables[u]) == PendingAt(h, s.tables[u]);
    }
  }

  /** `commit_changes` or `rollback_changes` on one table of a release, or the
      commit of an autocommit SET: the serial database has it already. */
  lemma TallyEdit(db: Db, h: Hist, s: State, s': State, c: ClientId, cl: Client, t: TableId, e: Edit)
    requires SerialInv(db, h, s) && OwnersExist(s)
    requires OnlyStore(s, s', c, cl, t, e) && s.tables[t].owner == Some(c) && c in s.clients
    requires (e == CommitAll && Status(s, t) == CommitDue) || (e == RollbackAll && Status(s, t) == RollbackDue)
    requires PhaseOf(cl, t) == Clean
    requires forall x | x in s.tables && x != t && s.tables[x].owner == Some(c) :: PhaseOf(cl, x) == PhaseOf(s.clients[c], x)
    requires !IsOpen(cl) && !IsOpen(s.clients[c])
    ensures SerialInv(db, h, s')
  {
    forall u | u in s'.tables ensures TableTallies(db, h, s', u) {
      EditTallies(db, h, s, s', c, cl, t, e, u);
    }
    EditKeepsNames(s, s', c, cl, t, e);
    forall d | d in h.open ensures OpenAgrees(db, h, s', d) {
      OpenFrame(db, db, h, h, s, s', d);
    }
  }

  // ----- commit and abort points ------------------------------------------

  /** At its abort point a transaction leaves the open ones; its tables await
      their rollback, the database is untouched. */
  lemma TallyAbort(db: Db, h: Hist, h': Hist, s: State, s': State, c: ClientId, cl: Client)
    requires SerialInv(db, h, s) && OwnersExist(s)
    requires OnlyClient(s, s', c, cl) && !IsOpen(cl)
    requires c in h.open && h'.open == h.open - {c}
    requires forall t | t in s.tables && s.tables[t].owner == Some(c) ::
               PhaseOf(s.clients[c], t) == InUse && PhaseOf(cl, t) == RollbackDue
    ensures SerialInv(db, h', s')
  {
    forall t | t in s'.tables ensures TableTallies(db, h', s', t) {
      assert TableTallies(db, h, s, t);
      if s.tables[t].owner != Some(c) {
        BystanderTable(db, db, h, h', s, s', c, t);
      }
    }
    forall d | d in h'.open ensures OpenAgrees(db, h', s', d) {
      OpenFrame(db, db, h, h', s, s', d);
    }
  }

  /** The rows of tables outside a transaction's reach survive its commit. */
  lemma MergeElsewhere(db: Db, ops: seq<Op>, names: set<string>, n: string)
    requires WorksOn(ops, names) && n in db && n !in names
    ensures Merge(db, ops)[n] == db[n]
  {
    OverlayElsewhere(ops, names, n);
  }

  lemma CommitTallies(db: Db, h: Hist, h': Hist, s: State, s': State, c: ClientId, cl: Client, t: TableId)
    requires SerialInv(db, h, s) && LockInv(s) && t in s.tables
    requires OnlyClient(s, s', c, cl) && c in h.open && h'.open == h.open - {c}
    requires s.tables[t].owner == Some(c) ==> PhaseOf(s.clients[c], t) == InUse && PhaseOf(cl, t) == CommitDue
    ensures TableTallies(Merge(db, h.open[c]), h', s', t)
  {
    var tb := s.tables[t];
    var db' := Merge(db, h.open[c]);
    assert TableTallies(db, h, s, t);
    if tb.owner == Some(c) {
      ShownCommit(tb.store, PendingAt(h, tb));
    } else {
      assert OpenAgrees(db, h, s, c);
      OpenHolds(s, c);
      assert tb.name !in NamesOf(s, s.clients[c].locked);
      MergeElsewhere(db, h.open[c], NamesOf(s, s.clients[c].locked), tb.name);
      BystanderTable(db, db', h, h', s, s', c, t);
    }
  }

  lemma CommitFrame(db: Db, h: Hist, s: State, c: ClientId, d: ClientId)
    requires SerialInv(db, h, s) && LockInv(s)
    requires c in h.open && d in h.open && d != c
    ensures SameRows(db, Merge(db, h.open[c]), NamesOf(s, s.clients[d].locked))
  {
    assert OpenAgrees(db, h, s, c);
    NamesAreDisjoint(s, c, d);
    forall n | n in NamesOf(s, s.clients[d].locked) && n in db ensures Merge(db, h.open[c])[n] == db[n] {
      MergeElsewhere(db, h.open[c], NamesOf(s, s.clients[c].locked), n);
    }
  }

  /** Two open transactions work on different tables. */
  lemma NamesAreDisjoint(s: State, c: ClientId, d: ClientId)
    requires LockInv(s) && c != d
    requires c in s.clients && IsOpen(s.clients[c]) && d in s.clients && IsOpen(s.clients[d])
    ensures NamesOf(s, s.clients[c].locked) !! NamesOf(s, s.clients[d].locked)
  {
    OpenHolds(s, c);
    OpenHolds(s, d);
  }

  /** At its commit point all writes of a transaction enter the serial database
      at once, although its tables get committed and released one by one. */
  lemma TallyCommit(db: Db, h: Hist, h': Hist, s: State, s': State, c: ClientId, cl: Client)
    requires SerialInv(db, h, s) && LockInv(s)
    requires OnlyClient(s, s', c, cl) && !IsOpen(cl)
    requires c in h.open && h'.open == h.open - {c}
    requires forall t | t in s.tables && s.tables[t].owner == Some(c) ::
               PhaseOf(s.clients[c], t) == InUse && PhaseOf(cl, t) == CommitDue
    ensures SerialInv(Merge(db, h.open[c]), h', s')
  {
    var db' := Merge(db, h.open[c]);
    forall t | t in s'.tables ensures TableTallies(db', h', s', t) {
      CommitTallies(db, h, h', s, s', c, cl, t);
    }
    forall d | d in h'.open ensures OpenAgrees(db', h', s', d) {
      CommitFrame(db, h, s, c, d);
      OpenFrame(db, db', h, h', s, s', d);
    }
  }

  // ----- a new table ------------------------------------------------------

  lemma TallyInsert(db: Db, h: Hist, h': Hist, s: State, s': State, c: ClientId, cl: Client, n: string, id: TableId)
    requires SerialInv(db, h, s) && OwnersExist(s) && RegistryOk(s)
    requires n !in s.registry && id !in s.tables
    requires s'.tables == s.tables[id := TableRecord(n, None, EMPTY)]
    requires s'.registry == s.registry[n := id] && s'.clients == s.clients[c := cl]
    requires c in s.clients && h'.open == h.open && IsOpen(cl) == IsOpen(s.clients[c]) && cl.locked == s.clients[c].locked
    requires SamePhases(s, c, cl)
    ensures SerialInv(db[n := map[]], h', s')
  {
    var db' := db[n := map[]];
    assert db'.Keys == s'.registry.Keys;
    AllInsertTallies(db, h, h', s, s', c, cl, n, id);
    forall d | d in h'.open ensures OpenAgrees(db', h', s', d) {
      InsertFrame(db, h, h', s, s', n, d);
    }
  }

  lemma AllInsertTallies(db: Db, h: Hist, h': Hist, s: State, s': State, c: ClientId, cl: Client, n: string, id: TableId)
    requires SerialInv(db, h, s) && OwnersExist(s) && RegistryOk(s)
    requires n !in s.registry && id !in s.tables
    requires s'.tables == s.tables[id := TableRecord(n, None, EMPTY)]
    requires s'.registry == s.registry[n := id] && s'.clients == s.clients[c := cl]
    requires c in s.clients && h'.open == h.open && SamePhases(s, c, cl)
    ensures forall t | t in s'.tables :: TableTallies(db[n := map[]], h', s', t)
  {
    assert TableTallies(db[n := map[]], h', s', id);
    forall t | t in s'.tables ensures TableTallies(db[n := map[]], h', s', t) {
      if t != id {
        InsertTallies(db, h, h', s, s', c, cl, n, id, t);
      }
    }
  }

  lemma InsertFrame(db: Db, h: Hist, h': Hist, s: State, s': State, n: string, d: ClientId)
    requires db.Keys == s.registry.Keys && n !in s.registry
    requires d in h.open && h'.open == h.open
    requires d in s.clients && d in s'.clients && s.clients[d].locked <= s'.clients[d].locked
    requires OpenAgrees(db, h, s, d)
    requires NamesKept(s, s', s.clients[d].locked)
    ensures OpenAgrees(db[n := map[]], h', s', d)
  {
    OpenFrame(db, db[n := map[]], h, h', s, s', d);
  }

  lemma InsertTallies(db: Db, h: Hist, h': Hist, s: State, s': State, c: ClientId, cl: Client, n: string, id: TableId, t: TableId)
    requires t in s.tables && TableTallies(db, h, s, t) && OwnersExist(s) && RegistryOk(s)
    requires n !in s.registry && id !in s.tables
    requires s'.tables == s.tables[id := TableRecord(n, None, EMPTY)] && s'.clients == s.clients[c := cl]
    requires h'.open == h.open && SamePhases(s, c, cl)
    ensures TableTallies(db[n := map[]], h', s', t)
  {
    assert Status(s', t) == Status(s, t);
    assert s.tables[t].name != n;
  }
}
