/** The reference: a database on which whole transactions, single operations and
    table creations happen one at a time, and the replay of a history on it. */
module Serial {
  import opened Tables
  import opened Wrappers

  /** Named tables with their committed entries; nothing else. */
  type Db = map<string, Row>

  /** What one request did: a read with its result (None: no such key), a write,
      or the discovery that a table does not exist. */
  datatype Op =
    | Read(table: string, key: string, result: Option<string>)
    | Write(table: string, key: string, value: string)
    | Absent(table: string)

  /** What happens as a whole. */
  datatype Unit =
    | Txn(client: nat, ops: seq<Op>, committed: bool)
    | One(client: nat, op: Op)
    | Create(client: nat, table: string, isNew: bool)

  /** What the operations so far propose to write to a table. */
  function Overlay(ops: seq<Op>, table: string): Row {
    if ops == [] then map[]
    else
      var n := |ops| - 1;
      var before := Overlay(ops[..n], table);
      if ops[n].Write? && ops[n].table == table then before[ops[n].key := ops[n].value] else before
  }

  /** The operation, coming after `before` in its transaction, sees what it recorded.
      As in the server, a committed entry hides the transaction's own write. */
  predicate OpAgrees(db: Db, before: seq<Op>, op: Op) {
    match op
    case Read(t, k, r) => t in db && Fetch(Store(db[t], Overlay(before, t)), k) == r
    case Write(t, _, _) => t in db
    case Absent(t) => t !in db
  }

  predicate OpsAgree(db: Db, ops: seq<Op>) {
    ops == [] ||
    (var n := |ops| - 1; OpsAgree(db, ops[..n]) && OpAgrees(db, ops[..n], ops[n]))
  }

  function Merge(db: Db, ops: seq<Op>): Db {
    map t | t in db :: db[t] + Overlay(ops, t)
  }

  predicate UnitAgrees(db: Db, u: Unit) {
    match u
    case Txn(_, ops, _) => OpsAgree(db, ops)
    case One(_, op) => OpAgrees(db, [], op)
    case Create(_, t, isNew) => isNew <==> t !in db
  }

  function UnitEffect(db: Db, u: Unit): Db {
    match u
    case Txn(_, ops, committed) => if committed then Merge(db, ops) else db
    case One(_, op) => Merge(db, [op])
    case Create(_, t, isNew) => if isNew then db[t := map[]] else db
  }

  /** The database after replaying a history, one unit after the other. */
  function Replay(db: Db, log: seq<Unit>): Db {
    if log == [] then db
    else var n := |log| - 1; UnitEffect(Replay(db, log[..n]), log[n])
  }

  /** In the replay, every read sees the value it recorded, every lookup and every
      CREATE has the outcome it recorded. */
  predicate ReplayAgrees(db: Db, log: seq<Unit>) {
    log == [] ||
    (var n := |log| - 1; ReplayAgrees(db, log[..n]) && UnitAgrees(Replay(db, log[..n]), log[n]))
  }

  // ----- facts about replays ----------------------------------------------

  lemma ReplayAppend(db: Db, log: seq<Unit>, u: Unit)
    ensures Replay(db, log + [u]) == UnitEffect(Replay(db, log), u)
    ensures ReplayAgrees(db, log + [u]) <==> ReplayAgrees(db, log) && UnitAgrees(Replay(db, log), u)
  {
    assert (log + [u])[..|log|] == log;
  }

  lemma OpsAppend(db: Db, ops: seq<Op>, op: Op)
    ensures OpsAgree(db, ops + [op]) <==> OpsAgree(db, ops) && OpAgrees(db, ops, op)
  {
    assert (ops + [op])[..|ops|] == ops;
  }

  lemma OverlayAppend(ops: seq<Op>, op: Op, t: string)
    ensures Overlay(ops + [op], t) ==
              if op.Write? && op.table == t then Overlay(ops, t)[op.key := op.value] else Overlay(ops, t)
  {
    assert (ops + [op])[..|ops|] == ops;
  }

  /** The tables a list of operations works on. */
  ghost predicate WorksOn(ops: seq<Op>, tables: set<string>) {
    forall i | 0 <= i < |ops| :: !ops[i].Absent? && ops[i].table in tables
  }

  lemma WorksOnAppend(ops: seq<Op>, op: Op, tables: set<string>)
    requires WorksOn(ops, tables) && !op.Absent? && op.table in tables
    ensures WorksOn(ops + [op], tables)
  {
  }

  lemma {:induction false} OverlayElsewhere(ops: seq<Op>, tables: set<string>, t: string)
    requires WorksOn(ops, tables) && t !in tables
    ensures Overlay(ops, t) == map[]
  {
    if ops != [] {
      OverlayElsewhere(ops[..|ops| - 1], tables, t);
    }
  }

  /** Two databases hold the same rows for the given tables. */
  predicate SameRows(db: Db, db': Db, tables: set<string>) {
    forall t | t in tables && t in db :: t in db' && db'[t] == db[t]
  }

  /** What a transaction saw stays valid while its tables are left alone. */
  lemma {:induction false} OpsAgreeFrame(db: Db, db': Db, ops: seq<Op>, tables: set<string>)
    requires OpsAgree(db, ops) && WorksOn(ops, tables) && SameRows(db, db', tables)
    ensures OpsAgree(db', ops)
  {
    if ops != [] {
      OpsAgreeFrame(db, db', ops[..|ops| - 1], tables);
    }
  }

  lemma MergeNothing(db: Db, op: Op)
    requires !op.Write?
    ensures Merge(db, [op]) == db
  {
    forall t | t in db ensures Merge(db, [op])[t] == db[t] {
      OverlayAppend([], op, t);
      assert [] + [op] == [op];
    }
  }

  lemma MergeOne(db: Db, t: string, k: string, v: string)
    requires t in db
    ensures Merge(db, [Write(t, k, v)]) == db[t := db[t][k := v]]
  {
    var op := Write(t, k, v);
    assert [] + [op] == [op];
    forall u | u in db ensures Merge(db, [op])[u] == db[t := db[t][k := v]][u] {
      OverlayAppend([], op, u);
    }
  }
}
