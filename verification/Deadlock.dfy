/** Two-phase release, no deadlock over the two lock levels, bounded work and a
    registry that only grows: on every run, of the code as written too. */
module Deadlock {
  import opened Engine
  import opened Holdings
  import opened Runs
  import opened Tables
  import opened Wrappers

  // ----- two-phase release ------------------------------------------------

  /** One step while client `c` is releasing: it goes on with the same release and
      holds no table it did not hold before, or it is through and holds none. */
  lemma ReleaseStep(v: Variant, s: State, a: Action, c: ClientId)
    requires Enabled(s, a) && c in s.clients && s.clients[c].pc.Releasing?
    ensures var z := Step(v, s, a);
            && c in z.clients
            && z.clients[c].stack == s.clients[c].stack
            && (z.clients[c].pc.Releasing? ==>
                  && z.clients[c].pc.commit == s.clients[c].pc.commit
                  && z.clients[c].locked == s.clients[c].locked
                  && Held(z.clients[c]) <= Held(s.clients[c]))
            && (!z.clients[c].pc.Releasing? ==> Grip(z.clients[c]) == {} && !z.clients[c].inTx && z.clients[c].locked == {})
  {
    var (cl, e) := Move(v, s, a);
    if a.c == c {
      assert a.input.Go?;
      ReleaseContinues(v, s.clients[c], s.registry, StoreAt(s, Subject(s.clients[c].pc)), OwnerAt(s, Subject(s.clients[c].pc)), a.input.pick);
    }
    ClientsAfter(s, a.c, cl, e, c);
  }

  lemma ClientsAfter(s: State, c: ClientId, cl: Client, e: Effect, d: ClientId)
    requires d in s.clients
    ensures var z := Apply(s, c, cl, e); d in z.clients && z.clients[d] == if d == c then cl else s.clients[d]
  {
  }

  lemma ReleaseContinues(v: Variant, cl: Client, registry: map<string, TableId>, store: Store, owner: Option<ClientId>, pick: nat)
    requires cl.pc.Releasing?
    ensures var cl' := Continue(v, cl, registry, store, owner, pick).0;
            && cl'.stack == cl.stack
            && (cl'.pc.Releasing? ==> cl'.pc.commit == cl.pc.commit && cl'.locked == cl.locked && Held(cl') <= Held(cl))
            && (!cl'.pc.Releasing? ==> Grip(cl') == {} && !cl'.inTx && cl'.locked == {})
  {
  }

  /** Client `c` is releasing in every state of the run from the `i`th on. */
  predicate ReleasesFrom(v: Variant, s: State, run: seq<Action>, i: nat, c: ClientId)
    requires Legal(v, s, run) && i <= |run|
    decreases |run|
  {
    var z := After(v, s, run);
    && c in z.clients && z.clients[c].pc.Releasing?
    && (i < |run| ==> ReleasesFrom(v, s, run[..|run| - 1], i, c))
  }

  /** Once a COMMIT or abort has begun, the client's set of tables only shrinks
      until it is through, however the other clients interleave, from any state on. */
  lemma {:induction false} TwoPhaseRelease(v: Variant, s: State, run: seq<Action>, i: nat, c: ClientId)
    requires Legal(v, s, run) && i <= |run| && ReleasesFrom(v, s, run, i, c)
    ensures Legal(v, s, run[..i]) && c in After(v, s, run[..i]).clients && After(v, s, run[..i]).clients[c].pc.Releasing?
    ensures var p, z := After(v, s, run[..i]).clients[c], After(v, s, run).clients[c];
            && z.pc.commit == p.pc.commit
            && z.locked == p.locked
            && z.stack == p.stack
            && Held(z) <= Held(p)
    decreases |run|
  {
    if i == |run| {
      assert run[..i] == run;
    } else {
      var n := |run| - 1;
      LastAction(v, s, run);
      assert run[..n][..i] == run[..i];
      TwoPhaseRelease(v, s, run[..n], i, c);
      ReleaseStep(v, After(v, s, run[..n]), run[n], c);
    }
  }

  // ----- waiting ----------------------------------------------------------

  /** Client `c` is inside a lock call for a mutex that client `d` owns. */
  predicate WaitsFor(s: State, c: ClientId, d: ClientId) {
    && c in s.clients && d in s.clients
    && match s.clients[c].pc
       case AutoWait(_, t) => t in s.tables && s.tables[t].owner == Some(d)
       case CreateWait(_) => s.server == Some(d)
       case _ => false
  }

  predicate IsChain(s: State, p: seq<ClientId>) {
    forall i | 0 <= i < |p| - 1 :: WaitsFor(s, p[i], p[i + 1])
  }

  /** A client waiting for a table holds no lock at all. */
  lemma TableWaiterHoldsNothing(s: State, c: ClientId)
    requires HoldInv(s) && c in s.clients && s.clients[c].pc.AutoWait?
    ensures Grip(s.clients[c]) == {} && !HoldsServer(s.clients[c])
  {
    assert ThreadOk(s, s.clients[c]);
  }

  /** Whoever holds the server mutex waits for nothing; whoever holds a table waits
      for the server mutex at most. */
  lemma HoldersHardlyWait(s: State, d: ClientId)
    requires HoldInv(s) && d in s.clients
    ensures HoldsServer(s.clients[d]) ==> !Blocked(s, s.clients[d])
    ensures Grip(s.clients[d]) != {} && Blocked(s, s.clients[d]) ==> s.clients[d].pc.CreateWait?
  {
    assert ThreadOk(s, s.clients[d]);
  }

  /** So whoever a waiter for the server mutex waits for is not blocked, and whoever
      a waiter for a table waits for does not wait for a table. */
  lemma WaitedFor(s: State, c: ClientId, d: ClientId)
    requires HoldInv(s) && WaitsFor(s, c, d)
    ensures c != d
    ensures !s.clients[d].pc.AutoWait?
    ensures s.clients[c].pc.CreateWait? ==> !Blocked(s, s.clients[d])
  {
    assert ThreadOk(s, s.clients[c]) && ThreadOk(s, s.clients[d]);
  }

  /** No waits-for chain has more than two edges. */
  lemma ChainsAreShort(s: State, p: seq<ClientId>)
    requires HoldInv(s) && IsChain(s, p)
    ensures |p| <= 3
  {
    if |p| >= 3 {
      WaitedFor(s, p[0], p[1]);
      WaitedFor(s, p[1], p[2]);
      assert |p| > 3 ==> WaitsFor(s, p[2], p[3]);
    }
  }

  /** In particular there is no cycle, not even a client waiting for itself. */
  lemma NoCycle(s: State, p: seq<ClientId>)
    requires HoldInv(s) && IsChain(s, p) && |p| >= 2
    ensures p[0] != p[|p| - 1]
  {
    if p[0] == p[|p| - 1] {
      var q := p + p[1..] + p[1..];
      forall i | 0 <= i < |q| - 1 ensures WaitsFor(s, q[i], q[i + 1]) {
        var m := |p| - 1;
        var j := if i < m then i else if i < 2 * m then i - m else i - 2 * m;
        assert q[i] == p[j] && q[i + 1] == p[j + 1];
        assert WaitsFor(s, p[j], p[j + 1]);
      }
      ChainsAreShort(s, q);
    }
  }

  // ----- progress ---------------------------------------------------------

  lemma {:induction false} FreshId(ids: set<nat>) returns (id: nat)
    ensures id !in ids
    ensures forall x | x in ids :: x < id
  {
    id := 0;
    if ids != {} {
      var x :| x in ids;
      var rest := FreshId(ids - {x});
      id := if rest > x then rest else x + 1;
      assert forall y | y in ids :: y == x || y in ids - {x};
    }
  }

  /** A thread inside a request that is not blocked can take its next step. */
  lemma Unblocked(s: State, c: ClientId) returns (pick: nat)
    requires HoldInv(s) && !s.crashed && c in s.clients
    requires s.clients[c].pc != Idle && s.clients[c].pc != Closed && !Blocked(s, s.clients[c])
    ensures Enabled(s, Act(c, Go(pick)))
  {
    pick := 0;
    var cl := s.clients[c];
    assert ThreadOk(s, cl);
    if cl.pc.CreateInsert? {
      pick := FreshId(s.tables.Keys);
    } else if cl.pc.Releasing? && cl.pc.stage.None? && cl.pc.todo != {} {
      pick :| pick in cl.pc.todo;
      assert pick in Held(cl);
    } else if cl.pc.Releasing? && cl.pc.stage.Some? {
      assert cl.pc.stage.value in Held(cl);
    } else if Subject(cl.pc).Some? {
      assert Subject(cl.pc).value in s.tables;
    }
  }

  /** The step that line 433 adds to a GET that misses. */
  function Extra(v: Variant): nat {
    if v == AsWritten then 1 else 0
  }

  /** Upper bound on the steps a request still takes, not counting waiting. */
  function Rank(v: Variant, cl: Client): nat {
    match cl.pc
    case Idle => 0
    case Closed => 0
    case AutoWait(_, _) => 4
    case AutoRun(_, _) => 3
    case AutoCommit(_) => 2
    case AutoUnlock(_, _) => 1
    case Releasing(_, todo, stage, _) => if stage.Some? then 2 * |todo| else 2 * |todo| + 1
    case TxAcquire(_, _) => 2 * |cl.locked| + 5 + Extra(v)
    case TxRun(_, _) => 2 * |cl.locked| + 2 + Extra(v)
    case Stray(_) => 2 * |cl.locked| + 2
    case CreateWait(_) => 2 * |cl.locked| + 5
    case CreateFind(_) => 2 * |cl.locked| + 4
    case CreateInsert(_) => 2 * |cl.locked| + 3
    case CreateUnlock(_) => 2 * |cl.locked| + 2
  }

  /** Every step of a request brings it closer to its end: no request runs for more
      than 2n + 5 steps of its own, n being the tables locked at its start, or 2n + 6
      in the code as written. */
  lemma WorkShrinks(v: Variant, s: State, c: ClientId, pick: nat)
    requires HoldInv(s) && Enabled(s, Act(c, Go(pick)))
    ensures Rank(v, Resume(v, s, s.clients[c], pick).0) < Rank(v, s.clients[c])
    ensures Rank(v, s.clients[c]) <= 2 * |s.clients[c].locked| + 5 + Extra(v)
  {
    var cl := s.clients[c];
    assert ThreadOk(s, cl);
    var store, owner := StoreAt(s, Subject(cl.pc)), OwnerAt(s, Subject(cl.pc));
    if cl.pc.Releasing? {
      ReleaseShrinks(v, cl, s.registry, pick);
    } else if cl.pc.TxAcquire? || cl.pc.TxRun? || cl.pc.Stray? {
      AccessShrinks(v, cl, s.registry, store, owner, pick);
    } else {
      OtherWorkShrinks(v, cl, s.registry, store, owner, pick);
    }
  }

  lemma AccessShrinks(v: Variant, cl: Client, registry: map<string, TableId>, store: Store, owner: Option<ClientId>, pick: nat)
    requires cl.pc.TxAcquire? || cl.pc.TxRun? || cl.pc.Stray?
    ensures Rank(v, Continue(v, cl, registry, store, owner, pick).0) < Rank(v, cl) <= 2 * |cl.locked| + 5 + Extra(v)
  {
    assert |cl.locked + {cl.pc.t}| <= |cl.locked| + 1;
  }

  lemma OtherWorkShrinks(v: Variant, cl: Client, registry: map<string, TableId>, store: Store, owner: Option<ClientId>, pick: nat)
    requires InAutocommit(cl.pc) || InCreate(cl.pc)
    requires InAutocommit(cl.pc) ==> cl.locked == {}
    ensures Rank(v, Continue(v, cl, registry, store, owner, pick).0) < Rank(v, cl) <= 2 * |cl.locked| + 5
  {
  }

  lemma ReleaseShrinks(v: Variant, cl: Client, registry: map<string, TableId>, pick: nat)
    requires cl.pc.Releasing? && cl.pc.todo <= cl.locked && (cl.pc.stage.Some? ==> cl.pc.stage.value in cl.pc.todo)
    ensures forall store, owner ::
              Rank(v, Continue(v, cl, registry, store, owner, pick).0) < Rank(v, cl)
    ensures Rank(v, cl) <= 2 * |cl.locked| + 5
  {
    SubsetIsSmaller(cl.pc.todo, cl.locked);
    if cl.pc.stage.Some? {
      assert |cl.pc.todo - {cl.pc.stage.value}| == |cl.pc.todo| - 1;
    }
  }

  lemma {:induction false} SubsetIsSmaller(a: set<nat>, b: set<nat>)
    requires a <= b
    ensures |a| <= |b|
  {
    if a != {} {
      var x :| x in a;
      SubsetIsSmaller(a - {x}, b - {x});
    }
  }

  /** No deadlock, in every state of every run: from a blocked client at most two
      waits-for edges lead to a client that is not blocked. That client is the next
      line away from going on (idle in a transaction), or can step right now. */
  lemma {:induction false} NoDeadlock(v: Variant, s: State, run: seq<Action>, c: ClientId) returns (d: ClientId, e: ClientId)
    requires AtRest(s) && Legal(v, s, run)
    requires var z := After(v, s, run); !z.crashed && c in z.clients && Blocked(z, z.clients[c])
    ensures var z := After(v, s, run);
            && WaitsFor(z, c, d)
            && (e == d || WaitsFor(z, d, e))
            && !Blocked(z, z.clients[e])
            && ((z.clients[e].pc == Idle && z.clients[e].inTx) || exists pick :: Enabled(z, Act(e, Go(pick))))
  {
    HoldingsOnEveryRun(v, s, run);
    var z := After(v, s, run);
    d := Blocker(z, c);
    e := d;
    WaitedFor(z, c, d);
    if Blocked(z, z.clients[d]) {
      e := Blocker(z, d);
      WaitedFor(z, d, e);
    }
    BlockerIsAlive(z, if e == d then c else d, e);
    if z.clients[e].pc != Idle {
      var pick := Unblocked(z, e);
    }
  }

  lemma Blocker(s: State, c: ClientId) returns (d: ClientId)
    requires HoldInv(s) && c in s.clients && Blocked(s, s.clients[c])
    ensures WaitsFor(s, c, d)
  {
    match s.clients[c].pc
    case AutoWait(_, t) => d := s.tables[t].owner.value;
    case CreateWait(_) => d := s.server.value;
  }

  lemma BlockerIsAlive(s: State, c: ClientId, d: ClientId)
    requires HoldInv(s) && WaitsFor(s, c, d)
    ensures s.clients[d].pc != Closed
    ensures s.clients[d].pc == Idle ==> s.clients[d].inTx
  {
    assert ThreadOk(s, s.clients[d]);
  }

  // ----- the registry -----------------------------------------------------

  predicate Extends(s: State, z: State) {
    && (forall n | n in s.registry :: n in z.registry && z.registry[n] == s.registry[n])
    && (forall t | t in s.tables ::
          && t in z.tables
          && z.tables[t].name == s.tables[t].name
          && s.tables[t].store.committed.Keys <= z.tables[t].store.committed.Keys)
  }

  lemma StepExtends(v: Variant, s: State, a: Action)
    requires HoldInv(s) && Enabled(s, a)
    ensures Extends(s, Step(v, s, a))
  {
    StepKeepsHoldings(v, s, a);
    EffectExtends(s, a.c, Move(v, s, a).0, Move(v, s, a).1);
  }

  lemma EffectExtends(s: State, c: ClientId, cl: Client, e: Effect)
    requires Fits(s, c, cl, e)
    ensures Extends(s, Apply(s, c, cl, e))
  {
  }

  /** Racing CREATEs, with lock, lookup, insertion and unlock as separate steps:
      the registry stays one-to-one, never loses or redirects a name, so a table
      once found stays the table of that name; and committed keys never vanish. */
  lemma {:induction false} RegistryOnEveryRun(v: Variant, s: State, run: seq<Action>, i: nat)
    requires AtRest(s) && Legal(v, s, run) && i <= |run|
    ensures Legal(v, s, run[..i])
    ensures RegistryOk(After(v, s, run))
    ensures Extends(After(v, s, run[..i]), After(v, s, run))
    decreases |run|
  {
    HoldingsOnEveryRun(v, s, run);
    if i == |run| {
      assert run[..i] == run;
    } else {
      var n := |run| - 1;
      LastAction(v, s, run);
      assert run[..n][..i] == run[..i];
      RegistryOnEveryRun(v, s, run[..n], i);
      HoldingsOnEveryRun(v, s, run[..n]);
      StepExtends(v, After(v, s, run[..n]), run[n]);
    }
  }
}
