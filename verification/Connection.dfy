/** The server's objects: the registry (server.cpp) and a client's connection
    (client_connection.cpp), whose methods update fields, stack and tables in
    place. A method here is one thread running undisturbed. If the objects mirror a
    state of the state machine before a line is taken, they mirror the state that the
    machine's own steps lead to afterwards. */
module Connection {
  import opened Alone
  import opened Codec
  import opened Engine
  import opened Grammar
  import opened Manual
  import opened Messages
  import opened StackMachine
  import opened Tables
  import opened Text
  import opened Wrappers

  class Server {
    var names: map<string, Table>
    var owner: Option<nat>
    var mutexIsLocked: bool

    /** Tables are registered under their names, and lie in different places. */
    ghost predicate Valid()
      reads this
    {
      && (forall n | n in names :: names[n].name == n)
      && (forall m, n | m in names && n in names && names[m].address == names[n].address :: m == n)
    }

    constructor ()
      ensures Valid() && names == map[] && owner == None && !mutexIsLocked
    {
      names, owner, mutexIsLocked := map[], None, false;
    }

    method Lock(me: nat)
      requires owner == None
      modifies this`owner, this`mutexIsLocked
      ensures owner == Some(me) && mutexIsLocked
    {
      owner, mutexIsLocked := Some(me), true;
    }

    method Unlock()
      modifies this`owner, this`mutexIsLocked
      ensures owner == None && !mutexIsLocked
    {
      owner, mutexIsLocked := None, false;
    }

    method CreateTable(name: string, address: nat)
      modifies this`names
      ensures names.Keys == old(names).Keys + {name}
      ensures forall n | n in old(names) && n != name :: names[n] == old(names)[n]
      ensures fresh(names[name]) && names[name].name == name && names[name].address == address
      ensures names[name].State() == EMPTY && names[name].owner == None
    {
      var t := new Table(name, address);
      names := names[name := t];
    }

    method FindTable(name: string) returns (t: Table?)
      ensures t != null <==> name in names
      ensures t != null ==> t == names[name]
    {
      if name in names {
        return names[name];
      }
      return null;
    }
  }

  /** How a handler ends: normally, by an exception that `call_response_function`
      catches, or by one that nobody does. */
  datatype Ends = Returns | Throws(why: Reason) | ThrowsInvalid(complaint: Complaint) | Dies

  /** A client whose release, if it has begun one, has run to its end. */
  function Settled(cl: Client): Client {
    if cl.pc.Releasing? then Finish(cl, cl.pc.ending) else cl
  }

  /** A handler ended with `e` in the state `now`: the state machine, whose step
      leads to `target`, agrees. */
  ghost predicate Agrees(e: Ends, now: Client, target: Option<Client>) {
    match target
    case None => e == Dies
    case Some(cl) =>
      match e
      case Returns => now == Settled(cl)
      case Throws(why) => cl == Throw(now, why)
      case ThrowsInvalid(complaint) => cl == Abort(now, Ending(Some(Error(BadLine(complaint))), true))
      case Dies => false
  }

  ghost function Addresses(ts: set<Table>): set<TableId> {
    set t | t in ts :: t.address
  }

  function RecordOf(t: Table): TableRecord
    reads t
  {
    TableRecord(t.name, t.owner, t.State())
  }

  datatype Placed = Placed(address: TableId, table: TableRecord)

  /** The tables of a state are exactly those of the snapshot. */
  ghost predicate Matches(s: State, snap: map<string, Placed>) {
    && s.registry.Keys == snap.Keys
    && (forall n | n in snap ::
          && s.registry[n] == snap[n].address
          && snap[n].address in s.tables
          && s.tables[snap[n].address] == snap[n].table
          && snap[n].table.name == n)
    && (forall a | a in s.tables :: s.tables[a].name in snap && snap[s.tables[a].name].address == a)
  }

  lemma MatchedNames(s: State, snap: map<string, Placed>, n: string)
    requires Matches(s, snap) && n in snap
    ensures forall m | m in snap && snap[m].address == snap[n].address :: m == n
  {
  }

  /** A release of client `cl`, if it is in one, turns one snapshot into the other. */
  ghost predicate ReleaseTurns(cl: Client, snap: map<string, Placed>, snap': map<string, Placed>) {
    && snap'.Keys == snap.Keys
    && forall n | n in snap ::
         snap'[n] == if cl.pc.Releasing? && snap[n].address in cl.pc.todo
                     then Placed(snap[n].address, ReleasedTable(cl.pc.commit, snap[n].table)) else snap[n]
  }

  lemma ReleaseMatches(s: State, c: ClientId, cl: Client, snap: map<string, Placed>, snap': map<string, Placed>)
    requires Matches(s, snap) && ReleaseTurns(cl, snap, snap')
    ensures Matches(Ended(s.(clients := s.clients[c := cl]), c), snap')
  {
  }

  /** One table changes, and nothing else. */
  lemma ChangeMatches(s: State, name: string, tb: TableRecord, snap: map<string, Placed>, snap': map<string, Placed>)
    requires Matches(s, snap) && name in snap && tb.name == name
    requires snap' == snap[name := Placed(snap[name].address, tb)]
    ensures Matches(s.(tables := s.tables[snap[name].address := tb]), snap')
  {
    MatchedNames(s, snap, name);
    var a := snap[name].address;
    var z := s.(tables := s.tables[a := tb]);
    forall n | n in snap'
      ensures z.registry[n] == snap'[n].address && snap'[n].address in z.tables
      ensures z.tables[snap'[n].address] == snap'[n].table && snap'[n].table.name == n
    {
    }
    forall x | x in z.tables ensures z.tables[x].name in snap' && snap'[z.tables[x].name].address == x {
      assert x != a ==> s.tables[x].name in snap;
    }
  }

  /** One table is added. */
  lemma InsertMatches(s: State, name: string, address: TableId, snap: map<string, Placed>)
    requires Matches(s, snap) && name !in snap && address !in s.tables
    ensures Matches(s.(registry := s.registry[name := address], tables := s.tables[address := TableRecord(name, None, EMPTY)]),
                    snap[name := Placed(address, TableRecord(name, None, EMPTY))])
  {
  }

  /** Requests that concern the client alone. */
  predicate IsLocal(k: MessageType) {
    k != CREATE && k != SET && k != GET
  }

  class ClientConnection {
    const id: nat
    const server: Server
    const stack: ValueStack
    const msg: Message
    var locked: set<Table>
    var inTx: bool
    var loop: bool
    var loggedIn: bool
    var lines: nat
    var sent: seq<Reply>

    /** The connection as the state machine sees it between requests. */
    ghost function View(): Client
      reads this, stack
    {
      Client(if loop then Idle else Closed, loggedIn, inTx, Addresses(locked), stack.items, lines, sent)
    }

    /** Locked tables are registered tables, and there are none outside transactions. */
    ghost predicate Valid()
      reads this, server
    {
      && server.Valid()
      && (forall t | t in locked :: t.name in server.names && server.names[t.name] == t)
      && (!inTx ==> locked == {})
    }

    /** All registered tables, as they are now. */
    ghost function Snapshot(): map<string, Placed>
      reads server, server.names.Values
    {
      map n | n in server.names :: Placed(server.names[n].address, RecordOf(server.names[n]))
    }

    /** Registry, tables and server mutex are as in state `s`. */
    ghost predicate MirrorsTables(s: State)
      reads server, server.names.Values
    {
      !s.crashed && s.server == server.owner && Matches(s, Snapshot())
    }

    /** And so is this client. */
    ghost predicate Mirrors(s: State)
      reads this, stack, server, server.names.Values
    {
      MirrorsTables(s) && id in s.clients && s.clients[id] == View()
    }

    constructor (id: nat, server: Server)
      ensures this.id == id && this.server == server && fresh(stack) && fresh(msg)
      ensures View() == NEW_CLIENT && locked == {}
    {
      this.id, this.server := id, server;
      locked, inTx, loop, loggedIn, lines, sent := {}, false, true, false, 0, [];
      stack := new ValueStack();
      msg := new Message();
    }

    method Write(r: Reply)
      modifies this`sent
      ensures sent == old(sent) + [r]
    {
      sent := sent + [r];
    }

    /** Rolls every locked table back and unlocks it, one after the other. */
    method FailTransaction()
      modifies this`locked, this`inTx, locked
      ensures locked == {} && !inTx
      ensures forall t | t in old(locked) :: t.State() == Rollback(old(t.State())) && t.owner == None
    {
      var todo := locked;
      while todo != {}
        invariant todo <= locked == old(locked)
        invariant forall t | t in locked - todo :: t.State() == Rollback(old(t.State())) && t.owner == None
        invariant forall t | t in todo :: t.State() == old(t.State()) && t.owner == old(t.owner)
      {
        var t :| t in todo;
        t.RollbackChanges();
        t.Unlock();
        todo := todo - {t};
      }
      locked, inTx := {}, false;
    }

    /** Commits every locked table and unlocks it, one after the other. */
    method HandleCommit() returns (e: Ends)
      modifies this`locked, this`inTx, this`sent, locked
      ensures e == if old(inTx) then Returns else Throws(NoTransaction)
      ensures !old(inTx) ==> locked == old(locked) && !inTx && sent == old(sent)
      ensures old(inTx) ==> locked == {} && !inTx && sent == old(sent) + [Okay]
      ensures forall t | t in old(locked) ::
                if old(inTx) then t.State() == Commit(old(t.State())) && t.owner == None
                else t.State() == old(t.State()) && t.owner == old(t.owner)
    {
      if !inTx {
        return Throws(NoTransaction);
      }
      var todo := locked;
      while todo != {}
        invariant todo <= locked == old(locked) && inTx && sent == old(sent)
        invariant forall t | t in locked - todo :: t.State() == Commit(old(t.State())) && t.owner == None
        invariant forall t | t in todo :: t.State() == old(t.State()) && t.owner == old(t.owner)
      {
        var t :| t in todo;
        t.CommitChanges();
        t.Unlock();
        todo := todo - {t};
      }
      locked, inTx := {}, false;
      Write(Okay);
      return Returns;
    }

    /** `manage_exception`: the transaction fails first, then the client is told. */
    method ManageException(why: Reason, recoverable: bool)
      modifies this`locked, this`inTx, this`sent, locked
      ensures !inTx && sent == old(sent) + [if recoverable then Failed(why) else Error(why)]
      ensures locked == if old(inTx) then {} else old(locked)
      ensures forall t | t in old(locked) ::
                if old(inTx) then t.State() == Rollback(old(t.State())) && t.owner == None
                else t.State() == old(t.State()) && t.owner == old(t.owner)
    {
      if inTx {
        FailTransaction();
      }
      Write(if recoverable then Failed(why) else Error(why));
    }

    method HandleBegin() returns (e: Ends)
      modifies this`inTx, this`sent
      ensures inTx
      ensures e == if old(inTx) then Throws(NestedTransaction) else Returns
      ensures sent == if old(inTx) then old(sent) else old(sent) + [Okay]
    {
      if inTx {
        return Throws(NestedTransaction);
      }
      inTx := true;
      Write(Okay);
      return Returns;
    }

    method HandlePush(v: string)
      modifies this`sent, stack
      ensures stack.items == old(stack.items) + [v] && sent == old(sent) + [Okay]
    {
      stack.Push(v);
      Write(Okay);
    }

    method HandlePop() returns (e: Ends)
      modifies this`sent, stack
      ensures e == if old(stack.items) == [] then Throws(OnStack(NothingToPop)) else Returns
      ensures stack.items == Popped(old(stack.items))
      ensures sent == if old(stack.items) == [] then old(sent) else old(sent) + [Okay]
    {
      var ok := stack.Pop();
      if !ok {
        return Throws(OnStack(NothingToPop));
      }
      Write(Okay);
      return Returns;
    }

    method HandleTop() returns (e: Ends)
      modifies this`sent
      ensures stack.items == [] ==> e == Throws(OnStack(NothingOnTop)) && sent == old(sent)
      ensures stack.items != [] && DataFits(TopOf(stack.items)) ==>
                e == Returns && sent == old(sent) + [Datum(TopOf(stack.items))]
      ensures stack.items != [] && !DataFits(TopOf(stack.items)) ==> e == ThrowsInvalid(TooLong) && sent == old(sent)
    {
      var top := stack.GetTop();
      if top == None {
        return Throws(OnStack(NothingOnTop));
      }
      var msg := new Message.Of(Content(DATA, [top.value]));
      var o, line := Encode(msg, "");
      if o != Done {
        return ThrowsInvalid(TooLong);
      }
      Write(Datum(top.value));
      return Returns;
    }

    method HandleOperator(op: ArithOp) returns (e: Ends)
      modifies this`sent, stack
      ensures var r := Arith(op, old(stack.items));
              match r
              case Next(items) => e == Returns && stack.items == items && sent == old(sent) + [Okay]
              case Refuse(why, items) => e == Throws(OnStack(why)) && stack.items == items && sent == old(sent)
              case Crash => e == Dies && sent == old(sent)
    {
      var r := HandleArith(stack, op);
      match r
      case Crash =>
        return Dies;
      case Refuse(why, _) =>
        return Throws(OnStack(why));
      case Next(_) =>
        Write(Okay);
        return Returns;
    }

    method HandleBye()
      modifies this`sent, this`loop
      ensures !loop && sent == old(sent) + [Okay]
    {
      loop := false;
      Write(Okay);
    }

    /** `handle_create`, with the server mutex held from lookup to insertion. */
    method HandleCreate(name: string, address: nat) returns (e: Ends)
      requires Valid() && server.owner == None
      requires forall n | n in server.names :: server.names[n].address != address
      modifies this`sent, server
      ensures Valid() && server.owner == None && !server.mutexIsLocked
      ensures name in old(server.names) ==>
                e == Throws(TableExists) && server.names == old(server.names) && sent == old(sent)
      ensures name !in old(server.names) ==>
                && e == Returns && sent == old(sent) + [Okay]
                && server.names.Keys == old(server.names).Keys + {name}
                && fresh(server.names[name]) && server.names[name].name == name && server.names[name].address == address
                && server.names[name].State() == EMPTY && server.names[name].owner == None
      ensures forall n | n in old(server.names) :: n in server.names && server.names[n] == old(server.names)[n]
    {
      server.Lock(id);
      var t := server.FindTable(name);
      if t != null {
        server.Unlock();
        return Throws(TableExists);
      }
      server.CreateTable(name, address);
      Write(Okay);
      server.Unlock();
      return Returns;
    }

    /** Takes the table's lock for an operation: waits outside transactions, tries
        inside them, unless the transaction has it already. */
    method Acquire(t: Table) returns (ok: bool)
      requires !inTx ==> t.owner == None
      modifies this`locked, t`owner
      ensures ok <==> !inTx || t in old(locked) || old(t.owner) == None
      ensures ok && !(inTx && t in old(locked)) ==> t.owner == Some(id)
      ensures !ok || (inTx && t in old(locked)) ==> t.owner == old(t.owner)
      ensures locked == if ok && inTx then old(locked) + {t} else old(locked)
    {
      ok := true;
      if !inTx {
        t.Lock(id);
      } else if t !in locked {
        ok := t.TryLock(id);
        if ok {
          locked := locked + {t};
        }
      }
    }

    /** `handle_set`. Outside a transaction the value is committed and the table free
        again; inside, it is proposed and the table stays locked. */
    method HandleSet(name: string, key: string) returns (e: Ends)
      requires Valid() && (stack.items != [] && name in server.names && !inTx ==> server.names[name].owner == None)
      modifies this`locked, this`sent, stack, if name in server.names then {server.names[name]} else {}
      ensures Valid()
      ensures e == if old(stack.items) == [] then Throws(NoValueOnStack)
                   else if name !in server.names then Throws(TableNotFound)
                   else if inTx && server.names[name] !in old(locked) && old(server.names[name].owner) != None then Throws(TableBusy)
                   else Returns
      ensures e != Returns ==> stack.items == old(stack.items) && sent == old(sent) && locked == old(locked)
      ensures name in server.names && e != Returns ==>
                server.names[name].State() == old(server.names[name].State()) && server.names[name].owner == old(server.names[name].owner)
      ensures e == Returns ==>
                var t, was, v := server.names[name], old(server.names[name].State()), TopOf(old(stack.items));
                && stack.items == Popped(old(stack.items)) && sent == old(sent) + [Okay]
                && (inTx ==> t.State() == Put(was, key, v) && locked == old(locked) + {t})
                && (inTx ==> t.owner == if t in old(locked) then old(server.names[name].owner) else Some(id))
                && (!inTx ==> t.State() == Commit(Put(was, key, v)) && t.owner == None && locked == old(locked))
    {
      if |stack.items| < 1 {
        return Throws(NoValueOnStack);
      }
      var t := server.FindTable(name);
      if t == null {
        return Throws(TableNotFound);
      }
      var ok := Acquire(t);
      if !ok {
        return Throws(TableBusy);
      }
      var top := stack.GetTop();
      t.Set(key, top.value);
      var popped := stack.Pop();
      if !inTx {
        t.CommitChanges();
        t.Unlock();
      }
      Write(Okay);
      return Returns;
    }

    /** `get_table_value`, with its unlock when the key is missing. */
    method GetTableValue(t: Table, key: string) returns (e: Ends)
      modifies stack, t`owner
      ensures e == if HasKey(t.State(), key) then Returns else Throws(KeyNotFound)
      ensures stack.items == old(stack.items) + if e == Returns then [Fetch(t.State(), key).value] else []
      ensures t.owner == if e == Returns then old(t.owner) else None
    {
      var has := t.Has(key);
      if !has {
        t.Unlock();
        return Throws(KeyNotFound);
      }
      var v := t.Get(key);
      stack.Push(v.value);
      return Returns;
    }

    /** `handle_get`. After a missing key the table is unlocked, yet in a transaction
        it stays among `locked_tables`. */
    method HandleGet(name: string, key: string) returns (e: Ends)
      requires Valid() && (name in server.names && !inTx ==> server.names[name].owner == None)
      modifies this`locked, this`sent, stack, (if name in server.names then {server.names[name]} else {})`owner
      ensures Valid()
      ensures e == if name !in server.names then Throws(TableNotFound)
                   else if inTx && server.names[name] !in old(locked) && old(server.names[name].owner) != None then Throws(TableBusy)
                   else if !HasKey(server.names[name].State(), key) then Throws(KeyNotFound)
                   else Returns
      ensures e == Returns ==>
                stack.items == old(stack.items) + [Fetch(server.names[name].State(), key).value] && sent == old(sent) + [Okay]
      ensures e != Returns ==> stack.items == old(stack.items) && sent == old(sent)
      ensures e == Throws(TableNotFound) || e == Throws(TableBusy) ==> locked == old(locked)
      ensures e == Throws(TableBusy) ==> server.names[name].owner == old(server.names[name].owner)
      ensures e == Returns || e == Throws(KeyNotFound) ==>
                locked == if inTx then old(locked) + {server.names[name]} else old(locked)
      ensures e == Returns ==>
                var t := server.names[name];
                t.owner == if !inTx then None else if t in old(locked) then old(server.names[name].owner) else Some(id)
      ensures e == Throws(KeyNotFound) ==> server.names[name].owner == None
    {
      var t := server.FindTable(name);
      if t == null {
        return Throws(TableNotFound);
      }
      var ok := Acquire(t);
      if !ok {
        return Throws(TableBusy);
      }
      e := GetTableValue(t, key);
      if !inTx {
        t.Unlock();
      }
      if e == Returns {
        Write(Okay);
      }
    }

    /** The destructor. */
    method Close()
      modifies this`locked, this`inTx, locked
      ensures !inTx && locked == if old(inTx) then {} else old(locked)
      ensures forall t | t in old(locked) ::
                if old(inTx) then t.State() == Rollback(old(t.State())) && t.owner == None
                else t.State() == old(t.State()) && t.owner == old(t.owner)
    {
      if inTx {
        FailTransaction();
      }
    }

    /** The switch of `call_response_function`: arithmetic. */
    method HandleArithmetic(op: ArithOp, m: Content) returns (e: Ends)
      requires loop && m.kind == RequestFor(op)
      modifies this`sent, stack
      ensures Agrees(e, View(), Dispatch(old(View()), map[], m))
    {
      OperatorDispatched(View(), map[], m, op);
      e := HandleOperator(op);
    }

    /** The switch of `call_response_function`: PUSH, POP, TOP. */
    method HandleEntry(m: Content) returns (e: Ends)
      requires loop && m.kind in {PUSH, POP, TOP}
      modifies this`sent, stack
      ensures Agrees(e, View(), Dispatch(old(View()), map[], m))
    {
      if m.kind == POP {
        e := HandlePop();
      } else if m.kind == TOP {
        e := HandleTop();
      } else if |m.args| < 1 {
        return Dies;
      } else {
        HandlePush(m.args[0]);
        return Returns;
      }
    }

    /** The switch of `call_response_function`: requests that only touch the stack. */
    method HandleOnStack(m: Content) returns (e: Ends)
      requires IsLocal(m.kind) && m.kind !in {BYE, BEGIN, COMMIT} && loop
      modifies this`sent, stack
      ensures Agrees(e, View(), Dispatch(old(View()), map[], m))
    {
      match m.kind
      case ADD => e := HandleArithmetic(Add, m);
      case SUB => e := HandleArithmetic(Sub, m);
      case MUL => e := HandleArithmetic(Mul, m);
      case DIV => e := HandleArithmetic(Div, m);
      case PUSH => e := HandleEntry(m);
      case POP => e := HandleEntry(m);
      case TOP => e := HandleEntry(m);
      case _ => return Throws(NotARequest);
    }

    /** The switch of `call_response_function`, for requests that concern the client alone. */
    method HandleLocal(m: Content) returns (e: Ends)
      requires IsLocal(m.kind) && m.kind != BYE && loop
      modifies this`inTx, this`sent, this`locked, stack, locked
      ensures Agrees(e, View(), Dispatch(old(View()), map[], m))
      ensures e == Returns && m.kind == COMMIT ==>
                !inTx && locked == {} && forall t | t in old(locked) :: t.State() == Commit(old(t.State())) && t.owner == None
      ensures !(e == Returns && m.kind == COMMIT) ==>
                && locked == old(locked) && (old(inTx) ==> inTx)
                && forall t | t in locked :: t.State() == old(t.State()) && t.owner == old(t.owner)
    {
      if m.kind == BEGIN {
        e := HandleBegin();
      } else if m.kind == COMMIT {
        e := HandleCommit();
      } else {
        e := HandleOnStack(m);
      }
    }

    /** The catch clauses of `call_response_function`. */
    method Catch(e: Ends)
      requires (e.Throws? || e.ThrowsInvalid?) && (!inTx ==> locked == {})
      modifies this`loop, this`inTx, this`sent, this`locked, locked
      ensures View() == Settled(if e.Throws? then Throw(old(View()), e.why)
                                else Abort(old(View()), Ending(Some(Error(BadLine(e.complaint))), true)))
                          .(pc := if old(loop) && e.Throws? then Idle else Closed)
      ensures !inTx && locked == {}
      ensures forall t | t in old(locked) :: RecordOf(t) == ReleasedTable(false, old(RecordOf(t)))
    {
      if e.ThrowsInvalid? {
        loop := false;
        ManageException(BadLine(e.complaint), false);
      } else {
        ManageException(e.why, true);
      }
    }

    /** A local request from dispatch to reply, destructor included if it ends the session. */
    method AnswerLocal(m: Content) returns (died: bool)
      requires IsLocal(m.kind) && loop && loggedIn && (!inTx ==> locked == {})
      modifies this`inTx, this`sent, this`locked, this`loop, stack, locked
      ensures died <==> Dispatch(old(View()), map[], m) == None
      ensures !died ==> View() == Settled(Dispatch(old(View()), map[], m).value)
      ensures !died ==> locked == if inTx then old(locked) else {}
      ensures !died && old(inTx) ==> forall t | t in old(locked) ::
                RecordOf(t) == if inTx then old(RecordOf(t)) else ReleasedTable(m.kind == COMMIT, old(RecordOf(t)))
    {
      if m.kind == BYE {
        HandleBye();
        Close();
        return false;
      }
      var e := HandleLocal(m);
      if e == Dies {
        return true;
      }
      if e != Returns {
        Catch(e);
      }
      return false;
    }

    /** `decode` on the bytes of a line, into the one message object of the session. */
    method Understand(line: string) returns (p: Parsed)
      modifies msg
      ensures p == Parse(line) && (p.Good? ==> msg.Value() == p.m)
    {
      ghost var prior := msg.Value();
      var o := Decode(CString(line), msg);
      PriorIsIrrelevant(CString(line), prior, Content(NONE, []));
      p := match o case Done => Good(msg.Value()) case Invalid(why) => Bad(why) case Escapes => Uncaught;
    }

    /** What the session loop does itself: bad lines, LOGIN, and whoever has not logged in. */
    method AnswerInLoop(p: Parsed) returns (done: bool)
      requires loop && !p.Uncaught? && (!inTx ==> locked == {})
      modifies this`lines, this`sent, this`loop, this`loggedIn, this`inTx, this`locked, locked
      ensures done <==> !(p.Good? && p.m.kind != LOGIN && old(loggedIn))
      ensures done ==> Serve(old(View()), map[], p).Some?
      ensures done ==> View() == Settled(Serve(old(View()), map[], p).value)
      ensures done ==> locked == if inTx then old(locked) else {}
      ensures !done ==> View() == old(View()).(lines := old(lines) + 1) && locked == old(locked)
      ensures old(inTx) ==> forall t | t in old(locked) ::
                RecordOf(t) == if inTx then old(RecordOf(t)) else ReleasedTable(false, old(RecordOf(t)))
    {
      lines := lines + 1;
      if p.Bad? {
        ManageException(BadLine(p.why), false);
        return true;
      }
      if p.m.kind == LOGIN {
        loggedIn := true;
        Write(Okay);
        return true;
      }
      if !loggedIn {
        Write(Error(NotLoggedIn));
        loop := false;
        Close();
        return true;
      }
      return false;
    }

    // ----- the objects and the state machine, side by side ----------------

    lemma HeldByAddress(t: Table, held: set<Table>)
      requires server.Valid() && t.name in server.names && server.names[t.name] == t
      requires forall u | u in held :: u.name in server.names && server.names[u.name] == u
      ensures t.address in Addresses(held) <==> t in held
    {
    }

    lemma SnapshotIs(snap: map<string, Placed>)
      requires snap.Keys == server.names.Keys
      requires forall n | n in server.names :: snap[n] == Placed(server.names[n].address, RecordOf(server.names[n]))
      ensures Snapshot() == snap
    {
    }

    /** The snapshot now, if the tables in `held` have been released or left alone. */
    lemma SnapshotTurns(cl: Client, held: set<Table>, snap: map<string, Placed>)
      requires server.Valid() && snap.Keys == server.names.Keys
      requires forall t | t in held :: t.name in server.names && server.names[t.name] == t
      requires cl.pc.Releasing? ==> cl.pc.todo == Addresses(held)
      requires forall n | n in server.names ::
                 var t := server.names[n];
                 && snap[n].address == t.address
                 && RecordOf(t) == if cl.pc.Releasing? && t in held then ReleasedTable(cl.pc.commit, snap[n].table) else snap[n].table
      ensures ReleaseTurns(cl, snap, Snapshot())
    {
      forall n | n in server.names
        ensures server.names[n].address in Addresses(held) <==> server.names[n] in held
      {
        HeldByAddress(server.names[n], held);
      }
    }

    /** The catch clauses, if anything was thrown. */
    method CatchIfThrown(e: Ends, ghost cl: Client, ghost snap: map<string, Placed>)
      requires Valid() && snap == Snapshot() && e != Dies && !e.ThrowsInvalid? && Agrees(e, View(), Some(cl)) && loop
      requires e == Returns ==> !cl.pc.Releasing?
      modifies this`loop, this`inTx, this`sent, this`locked, locked
      ensures Valid() && View() == Settled(cl) && ReleaseTurns(cl, snap, Snapshot())
    {
      ghost var held := locked;
      if e != Returns {
        Catch(e);
      }
      SnapshotTurns(cl, held, snap);
    }

    /** A handler that has dealt with one table is followed by the catch clauses. */
    method Settle(e: Ends, ghost s: State, ghost cl: Client)
      requires Valid() && MirrorsTables(s) && e != Dies && !e.ThrowsInvalid? && Agrees(e, View(), Some(cl)) && loop
      requires e == Returns ==> !cl.pc.Releasing?
      modifies this`loop, this`inTx, this`sent, this`locked, locked
      ensures Valid() && Mirrors(Ended(s.(clients := s.clients[id := cl]), id))
    {
      ghost var snap := Snapshot();
      CatchIfThrown(e, cl, snap);
      ReleaseMatches(s, id, cl, snap, Snapshot());
    }

    /** `handle_set` on a table that exists, seen as values. */
    method SetByValue(name: string, key: string, ghost p: Placed) returns (e: Ends)
      requires Valid() && loop && name in server.names && stack.items != []
      requires p == Placed(server.names[name].address, RecordOf(server.names[name]))
      requires !inTx ==> server.names[name].owner == None
      modifies this`sent, this`locked, stack, server.names[name]
      ensures Valid() && inTx == old(inTx)
      ensures (e, View(), RecordOf(server.names[name])) == SetOutcome(id, old(View()), p, key)
    {
      ghost var held := locked;
      HeldByAddress(server.names[name], held);
      AddressesGrow(held, server.names[name]);
      assert server.names[name] in held <==> p.address in View().locked;
      e := HandleSet(name, key);
    }

    /** `handle_get` on a table that exists, seen as values. */
    method GetByValue(name: string, key: string, ghost p: Placed) returns (e: Ends)
      requires Valid() && loop && name in server.names
      requires p == Placed(server.names[name].address, RecordOf(server.names[name]))
      requires !inTx ==> server.names[name].owner == None
      modifies this`sent, this`locked, stack, server.names[name]
      ensures Valid() && inTx == old(inTx)
      ensures (e, View(), RecordOf(server.names[name])) == GetOutcome(id, old(View()), p, key)
    {
      ghost var held := locked;
      HeldByAddress(server.names[name], held);
      AddressesGrow(held, server.names[name]);
      assert server.names[name] in held <==> p.address in View().locked;
      e := HandleGet(name, key);
    }

    method SetInSnapshot(name: string, key: string, ghost snap: map<string, Placed>, ghost o: (Ends, Client, TableRecord)) returns (e: Ends)
      requires Valid() && loop && name in server.names && stack.items != [] && snap == Snapshot()
      requires !inTx ==> server.names[name].owner == None
      requires o == SetOutcome(id, View(), snap[name], key)
      modifies this`sent, this`locked, stack, server.names[name]
      ensures Valid()
      ensures e == o.0 && View() == o.1 && Snapshot() == snap[name := Placed(snap[name].address, o.2)]
    {
      e := SetByValue(name, key, snap[name]);
      SnapshotIs(snap[name := Placed(snap[name].address, RecordOf(server.names[name]))]);
    }

    /** A SET that gets as far as its table, catch clauses included. */
    method AnswerSetInTable(name: string, key: string, ghost s: State, ghost pick: nat) returns (ghost z: State)
      requires Valid() && Mirrors(s) && loop && name in server.names && stack.items != []
      requires !Blocked(s, Approach(View(), s.registry, name, SetOp(key)))
      modifies this`loop, this`inTx, this`sent, this`locked, stack, server.names.Values
      ensures Valid() && Mirrors(z)
      ensures z == Answered(AsWritten, s, id, Approach(old(View()), s.registry, name, SetOp(key)), pick)
    {
      ghost var was, snap := View(), Snapshot();
      assert snap[name].table == RecordOf(server.names[name]);
      ghost var o := SetOutcome(id, was, snap[name], key);
      var e := SetInSnapshot(name, key, snap, o);
      ghost var s1, cl1;
      s1, cl1, z := SetAnswered(s, id, was, name, key, snap, o, pick);
      Settle(e, s1, cl1);
    }

    method GetInSnapshot(name: string, key: string, ghost snap: map<string, Placed>, ghost o: (Ends, Client, TableRecord)) returns (e: Ends)
      requires Valid() && loop && name in server.names && snap == Snapshot()
      requires !inTx ==> server.names[name].owner == None
      requires o == GetOutcome(id, View(), snap[name], key)
      modifies this`sent, this`locked, stack, server.names[name]
      ensures Valid()
      ensures e == o.0 && View() == o.1 && Snapshot() == snap[name := Placed(snap[name].address, o.2)]
    {
      e := GetByValue(name, key, snap[name]);
      SnapshotIs(snap[name := Placed(snap[name].address, RecordOf(server.names[name]))]);
    }

    /** A GET that gets as far as its table, catch clauses included. */
    method AnswerGetInTable(name: string, key: string, ghost s: State, ghost pick: nat) returns (ghost z: State)
      requires Valid() && Mirrors(s) && loop && name in server.names
      requires !Blocked(s, Approach(View(), s.registry, name, GetOp(key)))
      modifies this`loop, this`inTx, this`sent, this`locked, stack, server.names.Values
      ensures Valid() && Mirrors(z)
      ensures z == Answered(AsWritten, s, id, Approach(old(View()), s.registry, name, GetOp(key)), pick)
    {
      ghost var was, snap := View(), Snapshot();
      assert snap[name].table == RecordOf(server.names[name]);
      ghost var o := GetOutcome(id, was, snap[name], key);
      var e := GetInSnapshot(name, key, snap, o);
      ghost var s1, cl1;
      s1, cl1, z := GetAnswered(s, id, was, name, key, snap, o, pick);
      Settle(e, s1, cl1);
    }

    method AnswerSet(name: string, key: string, ghost s: State, ghost pick: nat) returns (ghost z: State)
      requires Valid() && Mirrors(s) && loop
      requires !Blocked(s, Approach(View(), s.registry, name, SetOp(key)))
      modifies this`loop, this`inTx, this`sent, this`locked, stack, server.names.Values
      ensures Valid() && Mirrors(z)
      ensures z == Answered(AsWritten, s, id, Approach(old(View()), s.registry, name, SetOp(key)), pick)
    {
      if name in server.names && |stack.items| > 0 {
        z := AnswerSetInTable(name, key, s, pick);
      } else {
        z := AnswerSetAmiss(name, key, s, pick);
      }
    }

    method AnswerGet(name: string, key: string, ghost s: State, ghost pick: nat) returns (ghost z: State)
      requires Valid() && Mirrors(s) && loop
      requires !Blocked(s, Approach(View(), s.registry, name, GetOp(key)))
      modifies this`loop, this`inTx, this`sent, this`locked, stack, server.names.Values
      ensures Valid() && Mirrors(z)
      ensures z == Answered(AsWritten, s, id, Approach(old(View()), s.registry, name, GetOp(key)), pick)
    {
      if name in server.names {
        z := AnswerGetInTable(name, key, s, pick);
      } else {
        var e := GetAmiss(name, key, Snapshot());
        z := AnswerThrown(e.why, s, pick);
      }
    }

    method GetAmiss(name: string, key: string, ghost snap: map<string, Placed>) returns (e: Ends)
      requires Valid() && name !in server.names && snap == Snapshot()
      modifies this`sent, this`locked, stack
      ensures Valid() && View() == old(View()) && Snapshot() == snap && e == Throws(TableNotFound)
    {
      e := HandleGet(name, key);
    }

    /** CREATE, from the lock of the server mutex to its reply. */
    method AnswerCreate(name: string, address: nat, ghost s: State) returns (ghost z: State)
      requires Valid() && Mirrors(s) && loop && s.server == None && address !in s.tables
      modifies this`loop, this`inTx, this`sent, this`locked, server, locked
      ensures Valid() && Mirrors(z)
      ensures z == Answered(AsWritten, s, id, old(View()).(pc := CreateWait(name)), address)
    {
      ghost var was, snap := View(), Snapshot();
      var e := CreateByValue(name, address, snap);
      ghost var s1, cl1;
      s1, cl1, z := CreateAnswered(s, id, was, name, address, snap);
      Settle(e, s1, cl1);
    }

    method CreateByValue(name: string, address: nat, ghost snap: map<string, Placed>) returns (e: Ends)
      requires Valid() && loop && server.owner == None && snap == Snapshot()
      requires forall n | n in snap :: snap[n].address != address
      modifies this`sent, server
      ensures Valid() && server.owner == None && locked == old(locked)
      ensures e == if name in snap then Throws(TableExists) else Returns
      ensures View() == if name in snap then old(View()) else Respond(old(View()), Okay)
      ensures Snapshot() == if name in snap then snap else snap[name := Placed(address, TableRecord(name, None, EMPTY))]
    {
      assert forall n | n in server.names :: snap[n].address == server.names[n].address;
      ghost var names := server.names;
      e := HandleCreate(name, address);
      ghost var now := if name in snap then snap else snap[name := Placed(address, TableRecord(name, None, EMPTY))];
      forall n | n in server.names ensures n in now && now[n] == Placed(server.names[n].address, RecordOf(server.names[n])) {
        if n in names {
          assert server.names[n] == names[n] && RecordOf(names[n]) == snap[n].table;
        }
      }
      SnapshotIs(now);
    }

    /** The switch of `call_response_function`: requests that name a table. */
    method AnswerTable(m: Content, address: nat, ghost s: State) returns (died: bool, ghost z: State)
      requires Valid() && Mirrors(s) && loop && loggedIn && !IsLocal(m.kind) && address !in s.tables
      requires var r := Dispatch(View(), s.registry, m); r.Some? ==> !Blocked(s, r.value)
      modifies this`loop, this`inTx, this`sent, this`locked, stack, server, server.names.Values
      ensures died <==> Dispatch(old(View()), s.registry, m) == None
      ensures !died ==> Valid() && Mirrors(z)
      ensures !died ==> z == Answered(AsWritten, s, id, Dispatch(old(View()), s.registry, m).value, address)
    {
      z := s;
      TableDispatched(View(), s.registry, m);
      died := |m.args| < if m.kind == CREATE then 1 else 2;
      if !died {
        if m.kind == CREATE {
          z := AnswerCreate(m.args[0], address, s);
        } else if m.kind == SET {
          z := AnswerSet(m.args[0], m.args[1], s, address);
        } else {
          z := AnswerGet(m.args[0], m.args[1], s, address);
        }
      }
    }

    /** What the session loop does itself, on snapshots. */
    method LoopInSnapshot(p: Parsed, ghost snap: map<string, Placed>) returns (done: bool)
      requires Valid() && loop && !p.Uncaught? && snap == Snapshot()
      modifies this`lines, this`sent, this`loop, this`loggedIn, this`inTx, this`locked, locked
      ensures Valid()
      ensures done <==> !(p.Good? && p.m.kind != LOGIN && old(loggedIn))
      ensures done ==> Serve(old(View()), map[], p).Some?
      ensures done ==> var cl := Serve(old(View()), map[], p).value; View() == Settled(cl) && ReleaseTurns(cl, snap, Snapshot())
      ensures !done ==> View() == old(View()).(lines := old(lines) + 1) && Snapshot() == snap && loop && loggedIn
    {
      ghost var was, held := View(), locked;
      done := AnswerInLoop(p);
      if done {
        LoopReleases(was, p);
        ghost var cl := Serve(was, map[], p).value;
        forall n | n in server.names
          ensures var t := server.names[n];
                  RecordOf(t) == if cl.pc.Releasing? && t in held then ReleasedTable(cl.pc.commit, snap[n].table) else snap[n].table
        {
          assert server.names[n] in held ==> was.inTx;
        }
        SnapshotTurns(cl, held, snap);
      } else {
        SnapshotIs(snap);
      }
    }

    /** A request that names no table, on snapshots. */
    method LocalInSnapshot(m: Content, ghost snap: map<string, Placed>) returns (died: bool)
      requires Valid() && loop && loggedIn && IsLocal(m.kind) && snap == Snapshot()
      modifies this`inTx, this`sent, this`locked, this`loop, stack, locked
      ensures died <==> Dispatch(old(View()), map[], m) == None
      ensures !died ==> Valid()
      ensures !died ==> var cl := Dispatch(old(View()), map[], m).value; View() == Settled(cl) && ReleaseTurns(cl, snap, Snapshot())
    {
      ghost var was, held := View(), locked;
      died := AnswerLocal(m);
      if !died {
        LocalReleases(was, m);
        SnapshotTurns(Dispatch(was, map[], m).value, held, snap);
      }
    }

    /** Everything the dispatcher gets to see. */
    method AnswerRequest(m: Content, address: nat, ghost s: State) returns (died: bool, ghost z: State)
      requires Valid() && Mirrors(s) && loop && loggedIn && address !in s.tables
      requires var r := Dispatch(View(), s.registry, m); r.Some? ==> !Blocked(s, r.value)
      modifies this`loop, this`inTx, this`sent, this`locked, stack, server, server.names.Values
      ensures died <==> Dispatch(old(View()), s.registry, m) == None
      ensures !died ==> Valid() && Mirrors(z)
      ensures !died ==> z == Answered(AsWritten, s, id, Dispatch(old(View()), s.registry, m).value, address)
    {
      if IsLocal(m.kind) {
        z := s;
        ghost var was, snap := View(), Snapshot();
        RegistryIsIdle(was, s.registry, m);
        LocalReleases(was, m);
        died := LocalInSnapshot(m, snap);
        if !died {
          z := MirroredAtOnce(s, Dispatch(was, s.registry, m).value, snap, address);
        }
      } else {
        died, z := AnswerTable(m, address, s);
      }
    }

    /** The client is through at once, but for a release. */
    lemma MirroredAtOnce(s: State, cl: Client, snap: map<string, Placed>, pick: nat) returns (z: State)
      requires !s.crashed && s.server == server.owner && Matches(s, snap) && ReleaseTurns(cl, snap, Snapshot())
      requires !IsUnderway(cl.pc) && View() == Settled(cl)
      ensures Mirrors(z) && z == Answered(AsWritten, s, id, cl, pick)
    {
      z := AnsweredAtOnce(AsWritten, s, id, cl, pick);
      ReleaseMatches(s, id, cl, snap, Snapshot());
    }

    /** What follows `decode` in the session loop. */
    method Answer(p: Parsed, address: nat, ghost s: State) returns (died: bool, ghost z: State)
      requires Valid() && Mirrors(s) && loop && address !in s.tables
      requires var r := Serve(View(), s.registry, p); r.Some? ==> !Blocked(s, r.value)
      modifies this, stack, server, server.names.Values
      ensures died <==> Serve(old(View()), s.registry, p) == None
      ensures !died ==> Valid() && Mirrors(z)
      ensures !died ==> z == Answered(AsWritten, s, id, Serve(old(View()), s.registry, p).value, address)
    {
      if p.Uncaught? {
        return true, s;
      }
      ghost var was := View();
      var done;
      done, z := AnswerHere(p, address, s);
      if done {
        return false, z;
      }
      died, z := AnswerCounted(p.m, address, s, was);
    }

    /** A line that has been counted and goes to the dispatcher. */
    method AnswerCounted(m: Content, address: nat, ghost s: State, ghost was: Client) returns (died: bool, ghost z: State)
      requires Valid() && MirrorsTables(s) && loop && loggedIn && address !in s.tables
      requires was.loggedIn && m.kind != LOGIN && View() == was.(lines := was.lines + 1)
      requires var r := Serve(was, s.registry, Good(m)); r.Some? ==> !Blocked(s, r.value)
      modifies this`loop, this`inTx, this`sent, this`locked, stack, server, server.names.Values
      ensures died <==> Serve(was, s.registry, Good(m)) == None
      ensures !died ==> Valid() && Mirrors(z)
      ensures !died ==> z == Answered(AsWritten, s, id, Serve(was, s.registry, Good(m)).value, address)
    {
      ServedIsDispatched(was, s.registry, m);
      ghost var counted := s.(clients := s.clients[id := View()]);
      died, z := AnswerRequest(m, address, counted);
      if !died {
        AnsweredAnyway(s, id, was.(lines := was.lines + 1), Serve(was, s.registry, Good(m)).value, address);
      }
    }

    /** What the session loop answers itself; if it does not, the line is counted and no more. */
    method AnswerHere(p: Parsed, ghost pick: nat, ghost s: State) returns (done: bool, ghost z: State)
      requires Valid() && Mirrors(s) && loop && !p.Uncaught?
      modifies this`lines, this`sent, this`loop, this`loggedIn, this`inTx, this`locked, locked
      ensures Valid() && (done <==> !(p.Good? && p.m.kind != LOGIN && old(loggedIn)))
      ensures done ==> Serve(old(View()), s.registry, p).Some? && Mirrors(z)
      ensures done ==> z == Answered(AsWritten, s, id, Serve(old(View()), s.registry, p).value, pick)
      ensures !done ==> View() == old(View()).(lines := old(lines) + 1) && MirrorsTables(s) && loop && loggedIn
    {
      z := s;
      ghost var was, snap := View(), Snapshot();
      LoopRegistryIsIdle(was, s.registry, p);
      done := LoopInSnapshot(p, snap);
      if done {
        LoopReleases(was, p);
        z := MirroredAtOnce(s, Serve(was, map[], p).value, snap, pick);
      }
    }

    lemma MirroredIsListening(s: State)
      requires Valid() && Mirrors(s) && loop
      ensures IsListening(s, id)
    {
      forall a | a in Addresses(locked) ensures a in s.tables {
        var t :| t in locked && t.address == a;
        assert t.name in Snapshot();
      }
      assert locked == {} ==> Addresses(locked) == {};
    }

    /** One round of the session loop, for any line. If the objects mirror a state of the
        state machine, and the request is not made to wait, then they mirror the state
        that the manual gives for the line, which is the state that the machine's own
        steps, with no other client moving, lead to: from the line to the reply, and
        through the release if there is one. The server goes down exactly if the manual
        says so. (`address` is where a new table would be.) */
    method TakeLine(line: string, address: nat, ghost s: State) returns (died: bool, ghost z: State)
      requires Valid() && Mirrors(s) && loop && address !in s.tables
      requires var r := Serve(View(), s.registry, Parse(line)); r.Some? ==> !Blocked(s, r.value)
      modifies this, stack, msg, server, server.names.Values
      ensures died <==> Serve(old(View()), s.registry, Parse(line)) == None
      ensures !died ==> Valid() && Mirrors(z)
      ensures !died ==> z == Answered(AsWritten, s, id, Serve(old(View()), s.registry, Parse(line)).value, address)
      ensures NamesTables(s) && (Parse(line).Good? ==> IsProper(Parse(line).m))
      ensures ReactionTo(s, id, Parse(line), address) == if died then None else Some(z)
    {
      MirroredIsListening(s);
      var p := Understand(line);
      LineObeys(s, id, line, p, address);
      died, z := Answer(p, address, s);
    }

    /** A SET without a value or without a table. */
    method AnswerSetAmiss(name: string, key: string, ghost s: State, ghost pick: nat) returns (ghost z: State)
      requires Valid() && Mirrors(s) && loop && (name !in server.names || stack.items == [])
      modifies this`loop, this`inTx, this`sent, this`locked, stack, server.names.Values
      ensures Valid() && Mirrors(z)
      ensures z == Answered(AsWritten, s, id, Approach(old(View()), s.registry, name, SetOp(key)), pick)
    {
      var e := SetAmiss(name, key, Snapshot());
      z := AnswerThrown(e.why, s, pick);
    }

    method SetAmiss(name: string, key: string, ghost snap: map<string, Placed>) returns (e: Ends)
      requires Valid() && (name !in server.names || stack.items == []) && snap == Snapshot()
      modifies this`sent, this`locked, stack, if name in server.names then {server.names[name]} else {}
      ensures Valid() && View() == old(View()) && Snapshot() == snap
      ensures e == Throws(if stack.items == [] then NoValueOnStack else TableNotFound)
    {
      e := HandleSet(name, key);
    }

    /** A handler has thrown before it changed anything. */
    method AnswerThrown(why: Reason, ghost s: State, ghost pick: nat) returns (ghost z: State)
      requires Valid() && Mirrors(s) && loop
      modifies this`loop, this`inTx, this`sent, this`locked, locked
      ensures Valid() && Mirrors(z)
      ensures z == Answered(AsWritten, s, id, Throw(old(View()), why), pick)
    {
      ghost var cl := Throw(View(), why);
      z := AnsweredAtOnce(AsWritten, s, id, cl, pick);
      Settle(Throws(why), s, cl);
    }
  }

  lemma LineObeys(s: State, c: ClientId, line: string, p: Parsed, address: TableId)
    requires IsListening(s, c) && address !in s.tables && Parse(line) == p
    requires var r := Serve(s.clients[c], s.registry, p); r.Some? ==> !Blocked(s, r.value)
    ensures p.Good? ==> IsProper(p.m)
    ensures Follows(AsWritten, s, c, Serve(s.clients[c], s.registry, p), address, ReactionTo(s, c, p, address))
  {
    if p.Good? {
      ReceivedIsProper(line, p.m);
    }
    UnblockedObeys(AsWritten, s, c, p, address);
  }

  lemma TableDispatched(cl: Client, registry: map<string, TableId>, m: Content)
    requires !IsLocal(m.kind)
    ensures Dispatch(cl, registry, m) ==
              if |m.args| < (if m.kind == CREATE then 1 else 2) then None
              else if m.kind == CREATE then Some(cl.(pc := CreateWait(m.args[0])))
              else Some(Approach(cl, registry, m.args[0], if m.kind == SET then SetOp(m.args[1]) else GetOp(m.args[1])))
  {
  }

  /** What a SET that reaches its table makes of client and table. */
  ghost function SetOutcome(c: ClientId, was: Client, p: Placed, k: string): (Ends, Client, TableRecord) {
    var put := Put(p.table.store, k, TopOf(was.stack));
    if was.inTx && p.address !in was.locked && p.table.owner != None then (Throws(TableBusy), was, p.table)
    else
      (Returns,
       Respond(was.(stack := Popped(was.stack), locked := if was.inTx then was.locked + {p.address} else was.locked), Okay),
       p.table.(store := if was.inTx then put else Commit(put),
                owner := if was.inTx && p.address !in was.locked then Some(c) else p.table.owner))
  }

  lemma SetAgrees(c: ClientId, was: Client, p: Placed, registry: map<string, TableId>, name: string, k: string)
    requires was.pc == Idle && was.stack != [] && name in registry && registry[name] == p.address
    requires !was.inTx ==> p.table.owner == None
    ensures var q := Solo(AsWritten, c, Spot(Approach(was, registry, name, SetOp(k)), p.table));
            var o := SetOutcome(c, was, p, k);
            Agrees(o.0, o.1, Some(q.cl)) && o.2 == q.table && (o.0 == Returns ==> !q.cl.pc.Releasing?)
  {
    var t := p.address;
    var q := Spot(Approach(was, registry, name, SetOp(k)), p.table);
    if !was.inTx {
      SoloAutoSet(AsWritten, c, q, k, t);
    } else if t in was.locked || p.table.owner == None {
      SoloTxSet(AsWritten, c, q, k, t);
      assert t in was.locked ==> was.locked + {t} == was.locked;
    } else {
      SoloBusy(AsWritten, c, q, SetOp(k), t);
    }
  }

  /** What a GET that reaches its table makes of client and table. */
  ghost function GetOutcome(c: ClientId, was: Client, p: Placed, k: string): (Ends, Client, TableRecord) {
    var now := was.(locked := if was.inTx then was.locked + {p.address} else was.locked);
    if was.inTx && p.address !in was.locked && p.table.owner != None then (Throws(TableBusy), was, p.table)
    else if !HasKey(p.table.store, k) then (Throws(KeyNotFound), now, p.table.(owner := None))
    else
      (Returns, Respond(now.(stack := was.stack + [Fetch(p.table.store, k).value]), Okay),
       p.table.(owner := if was.inTx && p.address !in was.locked then Some(c) else p.table.owner))
  }

  lemma GetAgrees(c: ClientId, was: Client, p: Placed, registry: map<string, TableId>, name: string, k: string)
    requires was.pc == Idle && name in registry && registry[name] == p.address
    requires !was.inTx ==> p.table.owner == None && was.locked == {}
    ensures var q := Solo(AsWritten, c, Spot(Approach(was, registry, name, GetOp(k)), p.table));
            var o := GetOutcome(c, was, p, k);
            Agrees(o.0, o.1, Some(q.cl)) && o.2 == q.table && (o.0 == Returns ==> !q.cl.pc.Releasing?)
  {
    var t := p.address;
    var q := Spot(Approach(was, registry, name, GetOp(k)), p.table);
    if !was.inTx {
      if HasKey(p.table.store, k) {
        SoloAutoHit(AsWritten, c, q, k, t);
      } else {
        SoloAutoMiss(AsWritten, c, q, k, t);
      }
    } else if t in was.locked || p.table.owner == None {
      assert t in was.locked ==> was.locked + {t} == was.locked;
      if HasKey(p.table.store, k) {
        SoloTxHit(AsWritten, c, q, k, t);
      } else {
        SoloTxMiss(AsWritten, c, q, k, t);
      }
    } else {
      SoloBusy(AsWritten, c, q, GetOp(k), t);
    }
  }

  lemma CreateAnswered(s: State, c: ClientId, was: Client, name: string, address: TableId, snap: map<string, Placed>)
    returns (s1: State, cl1: Client, z: State)
    requires !s.crashed && s.server == None && Matches(s, snap) && address !in s.tables && was.pc == Idle
    ensures !s1.crashed && s1.server == None
    ensures Matches(s1, if name in snap then snap else snap[name := Placed(address, TableRecord(name, None, EMPTY))])
    ensures if name in snap then cl1 == Throw(was, TableExists) else cl1 == Respond(was, Okay)
    ensures z == Ended(s1.(clients := s1.clients[c := cl1]), c)
    ensures z == Answered(AsWritten, s, c, was.(pc := CreateWait(name)), address)
  {
    var asked := s.(clients := s.clients[c := was.(pc := CreateWait(name))]);
    if name in snap {
      DriveCreateKnown(AsWritten, asked, c, name, address);
      s1, cl1 := s, Throw(was, TableExists);
    } else {
      DriveCreateNew(AsWritten, asked, c, name, address);
      InsertMatches(s, name, address, snap);
      s1 := s.(registry := s.registry[name := address], tables := s.tables[address := TableRecord(name, None, EMPTY)]);
      cl1 := Respond(was, Okay);
    }
    assert asked.clients[c := cl1] == s.clients[c := cl1];
    z := Ended(s1.(clients := s1.clients[c := cl1]), c);
  }

  lemma SetAnswered(s: State, c: ClientId, was: Client, name: string, k: string, snap: map<string, Placed>, o: (Ends, Client, TableRecord), pick: nat)
    returns (s1: State, cl1: Client, z: State)
    requires !s.crashed && Matches(s, snap) && name in snap && was.pc == Idle && was.stack != []
    requires !Blocked(s, Approach(was, s.registry, name, SetOp(k)))
    requires o == SetOutcome(c, was, snap[name], k)
    ensures Matches(s1, snap[name := Placed(snap[name].address, o.2)]) && !s1.crashed && s1.server == s.server
            && Agrees(o.0, o.1, Some(cl1)) && (o.0 == Returns ==> !cl1.pc.Releasing?)
    ensures z == Ended(s1.(clients := s1.clients[c := cl1]), c)
    ensures z == Answered(AsWritten, s, c, Approach(was, s.registry, name, SetOp(k)), pick)
  {
    SetAgrees(c, was, snap[name], s.registry, name, k);
    s1, cl1, z := AccessAnswered(s, c, name, Approach(was, s.registry, name, SetOp(k)), snap, pick);
  }

  lemma GetAnswered(s: State, c: ClientId, was: Client, name: string, k: string, snap: map<string, Placed>, o: (Ends, Client, TableRecord), pick: nat)
    returns (s1: State, cl1: Client, z: State)
    requires !s.crashed && Matches(s, snap) && name in snap && was.pc == Idle && (!was.inTx ==> was.locked == {})
    requires !Blocked(s, Approach(was, s.registry, name, GetOp(k)))
    requires o == GetOutcome(c, was, snap[name], k)
    ensures Matches(s1, snap[name := Placed(snap[name].address, o.2)]) && !s1.crashed && s1.server == s.server
            && Agrees(o.0, o.1, Some(cl1)) && (o.0 == Returns ==> !cl1.pc.Releasing?)
    ensures z == Ended(s1.(clients := s1.clients[c := cl1]), c)
    ensures z == Answered(AsWritten, s, c, Approach(was, s.registry, name, GetOp(k)), pick)
  {
    GetAgrees(c, was, snap[name], s.registry, name, k);
    s1, cl1, z := AccessAnswered(s, c, name, Approach(was, s.registry, name, GetOp(k)), snap, pick);
  }

  /** A GET or SET under way, alone: one table changes in the state and in the snapshot. */
  lemma AccessAnswered(s: State, c: ClientId, name: string, cl: Client, snap: map<string, Placed>, pick: nat)
    returns (s1: State, cl1: Client, z: State)
    requires !s.crashed && Matches(s, snap) && name in snap && IsAccess(cl.pc) && Subject(cl.pc) == Some(snap[name].address)
    ensures var p := Solo(AsWritten, c, Spot(cl, snap[name].table));
            && Matches(s1, snap[name := Placed(snap[name].address, p.table)])
            && !s1.crashed && s1.server == s.server && cl1 == p.cl
    ensures z == Ended(s1.(clients := s1.clients[c := cl1]), c)
    ensures z == Answered(AsWritten, s, c, cl, pick)
  {
    var t, p := snap[name].address, Solo(AsWritten, c, Spot(cl, snap[name].table));
    SoloKeepsName(AsWritten, c, Spot(cl, snap[name].table));
    ChangeMatches(s, name, p.table, snap, snap[name := Placed(t, p.table)]);
    AnsweredAccess(AsWritten, s, c, t, cl, pick);
    s1, cl1 := s.(tables := s.tables[t := p.table]), p.cl;
    z := Ended(s1.(clients := s1.clients[c := cl1]), c);
  }

  /** What a request that names no table does to a transaction. */
  ghost predicate EndsOrderly(was: Client, cl: Client, commit: bool) {
    && !IsUnderway(cl.pc)
    && (cl.pc.Releasing? <==> was.inTx && !Settled(cl).inTx)
    && (cl.pc.Releasing? ==> cl.pc.todo == was.locked && cl.pc.commit == commit)
  }

  lemma LoopReleases(was: Client, p: Parsed)
    requires was.pc == Idle && !p.Uncaught? && !(p.Good? && p.m.kind != LOGIN && was.loggedIn)
    ensures EndsOrderly(was, Serve(was, map[], p).value, false)
  {
  }

  lemma CalculateReleases(was: Client, r: Result)
    requires was.pc == Idle
    ensures Calculate(was, r).Some? ==> EndsOrderly(was, Calculate(was, r).value, false)
  {
  }

  lemma LocalReleases(was: Client, m: Content)
    requires was.pc == Idle && IsLocal(m.kind)
    ensures Dispatch(was, map[], m).Some? ==> EndsOrderly(was, Dispatch(was, map[], m).value, m.kind == COMMIT)
  {
    match m.kind
    case ADD => CalculateReleases(was, Arith(Add, was.stack));
    case SUB => CalculateReleases(was, Arith(Sub, was.stack));
    case MUL => CalculateReleases(was, Arith(Mul, was.stack));
    case DIV => CalculateReleases(was, Arith(Div, was.stack));
    case _ =>
  }

  lemma RegistryIsIdle(cl: Client, registry: map<string, TableId>, m: Content)
    requires IsLocal(m.kind)
    ensures Dispatch(cl, registry, m) == Dispatch(cl, map[], m)
  {
    match m.kind
    case _ =>
  }

  lemma LoopRegistryIsIdle(cl: Client, registry: map<string, TableId>, p: Parsed)
    ensures !(p.Good? && p.m.kind != LOGIN && cl.loggedIn) ==> Serve(cl, registry, p) == Serve(cl, map[], p)
  {
  }

  lemma AnsweredAnyway(s: State, c: ClientId, mid: Client, cl: Client, pick: nat)
    ensures Answered(AsWritten, s.(clients := s.clients[c := mid]), c, cl, pick) == Answered(AsWritten, s, c, cl, pick)
  {
    assert s.clients[c := mid][c := cl] == s.clients[c := cl];
  }

  lemma AddressesGrow(held: set<Table>, t: Table)
    ensures Addresses(held + {t}) == Addresses(held) + {t.address}
  {
  }
}
