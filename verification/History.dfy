/** What the concurrent server did, recorded in the order of commit and abort
    points, and how its tables relate to that record at every moment. */
module History {
  import opened Engine
  import opened Messages
  import opened Serial
  import opened Tables
  import opened Wrappers

  // ----- recording --------------------------------------------------------

  /** Completed units in serial order, and the operations of open transactions. */
  datatype Hist = Hist(log: seq<Unit>, open: map<ClientId, seq<Op>>)

  predicate IsOpen(cl: Client) {
    cl.inTx && !cl.pc.Releasing?
  }

  /** The missing table a request names, if that is what stops it. */
  function MissingTable(cl: Client, registry: map<string, TableId>, p: Parsed): Option<Op> {
    if p.Good? && cl.loggedIn && (p.m.kind == GET || (p.m.kind == SET && cl.stack != [])) &&
       |p.m.args| >= 2 && p.m.args[0] !in registry
    then Some(Absent(p.m.args[0])) else None
  }

  /** The table access a resumed thread performs in this step. */
  function TableAccess(s: State, cl: Client): Option<Op> {
    if (cl.pc.AutoRun? || cl.pc.TxRun?) && cl.pc.t in s.tables then
      var tb := s.tables[cl.pc.t];
      match cl.pc.op
      case GetOp(k) => Some(Read(tb.name, k, Fetch(tb.store, k)))
      case SetOp(k) => Some(Write(tb.name, k, TopOf(cl.stack)))
    else None
  }

  /** The outcome of a CREATE, fixed by the lookup or the insertion. */
  function Creation(s: State, c: ClientId, cl: Client): Option<Unit> {
    match cl.pc
    case CreateFind(n) => if n in s.registry then Some(Create(c, n, false)) else None
    case CreateInsert(n) => Some(Create(c, n, true))
    case _ => None
  }

  function Observed(s: State, a: Action): Option<Op>
    requires Enabled(s, a)
  {
    match a.input
    case Request(text) => MissingTable(s.clients[a.c], s.registry, Parse(text))
    case Go(_) => TableAccess(s, s.clients[a.c])
    case _ => None
  }

  function Created(s: State, a: Action): Option<Unit>
    requires Enabled(s, a)
  {
    if a.input.Go? then Creation(s, a.c, s.clients[a.c]) else None
  }

  /** An operation joins its client's open transaction, or is a unit of its own. */
  function Note(h: Hist, c: ClientId, op: Option<Op>): Hist {
    if op.None? then h
    else if c in h.open then h.(open := h.open[c := h.open[c] + [op.value]])
    else h.(log := h.log + [One(c, op.value)])
  }

  /** BEGIN opens a transaction; its commit point or abort point, the step after
      which its tables get released, closes it. */
  function Bound(h: Hist, c: ClientId, before: bool, after: Client): Hist {
    if !before && IsOpen(after) then h.(open := h.open[c := []])
    else if before && !IsOpen(after) && c in h.open then
      Hist(h.log + [Txn(c, h.open[c], after.pc.Releasing? && after.pc.commit)], h.open - {c})
    else h
  }

  function Record(v: Variant, h: Hist, s: State, a: Action): Hist
    requires Enabled(s, a)
  {
    var h1 := Note(h, a.c, Observed(s, a));
    var h2 := if Created(s, a).Some? then h1.(log := h1.log + [Created(s, a).value]) else h1;
    Bound(h2, a.c, a.c in s.clients && IsOpen(s.clients[a.c]), Move(v, s, a).0)
  }

  /** The history of a run. */
  function HistoryOf(v: Variant, s: State, run: seq<Action>): Hist
    requires Legal(v, s, run)
  {
    if run == [] then Hist([], map[])
    else
      var n := |run| - 1;
      Record(v, HistoryOf(v, s, run[..n]), After(v, s, run[..n]), run[n])
  }

  /** The committed contents of all tables, by name. */
  function CommittedDb(s: State): Db {
    map n | n in s.registry && s.registry[n] in s.tables :: s.tables[s.registry[n]].store.committed
  }

  // ----- the invariant ----------------------------------------------------

  /** Where a held table stands between its lock and its unlock. */
  datatype Phase = Clean | InUse | CommitDue | RollbackDue

  function PhaseOf(cl: Client, t: TableId): Phase {
    match cl.pc
    case AutoRun(_, _) => Clean
    case AutoUnlock(_, _) => Clean
    case AutoCommit(_) => CommitDue
    case Releasing(commit, _, stage, _) =>
      if stage == Some(t) then Clean else if commit then CommitDue else RollbackDue
    case _ => InUse
  }

  function Status(s: State, t: TableId): Phase
    requires t in s.tables
  {
    var o := s.tables[t].owner;
    if o.Some? && o.value in s.clients then PhaseOf(s.clients[o.value], t) else Clean
  }

  /** The writes to a table that the open transaction holding it has made. */
  function PendingAt(h: Hist, tb: TableRecord): Row {
    if tb.owner.Some? && tb.owner.value in h.open then Overlay(h.open[tb.owner.value], tb.name) else map[]
  }

  /** How a table's two maps relate to its row in the serial database. */
  predicate Tallies(row: Row, store: Store, phase: Phase, pending: Row) {
    match phase
    case Clean => row == store.committed && Shows(store, map[])
    case InUse => row == store.committed && Shows(store, pending)
    case CommitDue => row == store.committed + store.proposed
    case RollbackDue => row == store.committed
  }

  predicate TableTallies(db: Db, h: Hist, s: State, t: TableId)
    requires t in s.tables
  {
    var tb := s.tables[t];
    tb.name in db && Tallies(db[tb.name], tb.store, Status(s, t), PendingAt(h, tb))
  }

  function NamesOf(s: State, ts: set<TableId>): set<string> {
    set t | t in ts && t in s.tables :: s.tables[t].name
  }

  /** An open transaction's record agrees with the serial database as it is now,
      and concerns only tables its client has locked. */
  ghost predicate OpenAgrees(db: Db, h: Hist, s: State, c: ClientId)
    requires c in h.open && c in s.clients
  {
    OpsAgree(db, h.open[c]) && WorksOn(h.open[c], NamesOf(s, s.clients[c].locked))
  }

  ghost predicate SerialInv(db: Db, h: Hist, s: State) {
    && db.Keys == s.registry.Keys
    && (forall c :: c in h.open <==> c in s.clients && IsOpen(s.clients[c]))
    && (forall t | t in s.tables :: TableTallies(db, h, s, t))
    && (forall c | c in h.open :: OpenAgrees(db, h, s, c))
  }
}
