/** Exclusive ownership: whoever holds a table owns it, and nobody else does. True
    of every table on which no GET has missed. */
module Locks {
  import opened Engine
  import opened Holdings
  import opened Tables
  import opened Wrappers

  // ----- one table --------------------------------------------------------

  /** Whoever holds table `t` owns it, and no stray unlock of it is under way. */
  predicate SoleHolder(s: State, t: TableId) {
    && (forall c | c in s.clients && t in Held(s.clients[c]) :: t in s.tables && s.tables[t].owner == Some(c))
    && (forall c | c in s.clients :: s.clients[c].pc != Stray(t))
  }

  /** A GET on table `t` finds the table, but not its key. */
  predicate MissesOn(s: State, a: Action, t: TableId) {
    Misses(s, a) && s.clients[a.c].pc.t == t
  }

  lemma SoleAfterEffect(s: State, c: ClientId, cl: Client, e: Effect, t: TableId)
    requires HoldInv(s) && SoleHolder(s, t) && Fits(s, c, cl, e) && cl.pc != Stray(t)
    ensures SoleHolder(Apply(s, c, cl, e), t)
  {
    var z := Apply(s, c, cl, e);
    GripIsHeld(s, c, t);
    forall d | d in z.clients && t in Held(z.clients[d]) ensures t in z.tables && z.tables[t].owner == Some(d) {
      if d == c {
        OwnAfterEffect(s, c, cl, e, t);
      } else {
        OthersAfterEffect(s, c, cl, e, t, d);
      }
    }
  }

  lemma GripIsHeld(s: State, c: ClientId, t: TableId)
    requires SoleHolder(s, t)
    ensures t in Grip(Before(s, c)) <==> t in Held(Before(s, c))
  {
  }

  lemma OwnAfterEffect(s: State, c: ClientId, cl: Client, e: Effect, t: TableId)
    requires SoleHolder(s, t) && Fits(s, c, cl, e) && t in Held(cl) && (t in Grip(Before(s, c)) <==> t in Held(Before(s, c)))
    requires HoldInv(s) && cl.pc != Stray(t)
    ensures var z := Apply(s, c, cl, e); t in z.tables && z.tables[t].owner == Some(c)
  {
    assert t in Grip(cl);
  }

  lemma OthersAfterEffect(s: State, c: ClientId, cl: Client, e: Effect, t: TableId, d: ClientId)
    requires SoleHolder(s, t) && Fits(s, c, cl, e) && (t in Grip(Before(s, c)) <==> t in Held(Before(s, c)))
    requires d in s.clients && d != c && t in Held(s.clients[d])
    ensures var z := Apply(s, c, cl, e); t in z.tables && z.tables[t].owner == Some(d)
  {
    assert t in s.tables && s.tables[t].owner == Some(d);
  }

  /** Only a GET that misses gets a thread to the stray unlock. */
  lemma ContinueStrays(v: Variant, cl: Client, registry: map<string, TableId>, store: Store, owner: Option<ClientId>, pick: nat, t: TableId)
    requires Continue(v, cl, registry, store, owner, pick).0.pc == Stray(t)
    ensures v == AsWritten && (cl.pc.AutoRun? || cl.pc.TxRun?) && cl.pc.op.GetOp? && cl.pc.t == t && !HasKey(store, cl.pc.op.key)
  {
  }

  lemma MoveStrays(v: Variant, s: State, a: Action, t: TableId)
    requires HoldInv(s) && Enabled(s, a) && Move(v, s, a).0.pc == Stray(t)
    ensures v == AsWritten && MissesOn(s, a, t)
  {
    match a.input
    case Connect =>
    case Request(text) => ReceiveStaysOff(s, a.c, Parse(text));
    case Eof =>
    case Go(pick) =>
      var cl := s.clients[a.c];
      ContinueStrays(v, cl, s.registry, StoreAt(s, Subject(cl.pc)), OwnerAt(s, Subject(cl.pc)), pick, t);
  }

  lemma ReceiveStaysOff(s: State, c: ClientId, p: Parsed)
    requires HoldInv(s) && c in s.clients && s.clients[c].pc == Idle
    ensures !Receive(s, s.clients[c], p).0.pc.Stray?
  {
    if Serve(s.clients[c], s.registry, p).Some? {
      ServeFits(s, s.clients[c], p);
    }
  }

  lemma StepKeepsSole(v: Variant, s: State, a: Action, t: TableId)
    requires HoldInv(s) && Enabled(s, a) && SoleHolder(s, t)
    requires v == Line433Dropped || !MissesOn(s, a, t)
    ensures SoleHolder(Step(v, s, a), t)
  {
    StepKeepsHoldings(v, s, a);
    var (cl, e) := Move(v, s, a);
    if cl.pc == Stray(t) {
      MoveStrays(v, s, a, t);
      assert false;
    }
    SoleAfterEffect(s, a.c, cl, e, t);
  }

  /** Line 433 has not been reached for table `t`: it is not there, or no GET has missed on it. */
  predicate Spared(v: Variant, s: State, run: seq<Action>, t: TableId)
    requires Legal(v, s, run)
  {
    v == Line433Dropped || run == [] ||
    (var n := |run| - 1; Spared(v, s, run[..n], t) && !MissesOn(After(v, s, run[..n]), run[n], t))
  }

  lemma {:induction false} SoleOnEveryRun(v: Variant, s: State, run: seq<Action>, t: TableId)
    requires AtRest(s) && Legal(v, s, run) && Spared(v, s, run, t)
    ensures SoleHolder(After(v, s, run), t)
  {
    if run != [] {
      var n := |run| - 1;
      SoleOnEveryRun(v, s, run[..n], t);
      HoldingsOnEveryRun(v, s, run[..n]);
      StepKeepsSole(v, After(v, s, run[..n]), run[n], t);
    }
  }

  // ----- all tables -------------------------------------------------------

  /** A client's variables agree with its program counter, which is not at line 433. */
  predicate ClientOk(s: State, cl: Client) {
    ThreadOk(s, cl) && !cl.pc.Stray?
  }

  /** A table's owner is exactly the client that holds it. */
  predicate OwnersOk(s: State) {
    && (forall t | t in s.tables && s.tables[t].owner.Some? ::
          s.tables[t].owner.value in s.clients && t in Held(s.clients[s.tables[t].owner.value]))
    && (forall c, t | c in s.clients && t in Held(s.clients[c]) ::
          t in s.tables && s.tables[t].owner == Some(c))
  }

  predicate LockInv(s: State) {
    && RegistryOk(s)
    && (forall c | c in s.clients :: ClientOk(s, s.clients[c]))
    && OwnersOk(s)
    && ServerOk(s)
  }

  lemma LocksHold(s: State)
    requires LockInv(s)
    ensures HoldInv(s) && forall t :: SoleHolder(s, t)
  {
  }

  lemma HoldingsLock(s: State)
    requires HoldInv(s) && forall t :: SoleHolder(s, t)
    ensures LockInv(s)
  {
    forall c | c in s.clients ensures ClientOk(s, s.clients[c]) {
      var pc := s.clients[c].pc;
      var t := if pc.Stray? then pc.t else 0;
      assert ThreadOk(s, s.clients[c]) && SoleHolder(s, t);
    }
    forall c, t | c in s.clients && t in Held(s.clients[c]) ensures t in s.tables && s.tables[t].owner == Some(c) {
      assert SoleHolder(s, t);
    }
  }

  lemma StepKeepsLocks(s: State, a: Action)
    requires LockInv(s) && Enabled(s, a)
    ensures LockInv(Step(Line433Dropped, s, a))
    ensures Fits(s, a.c, Move(Line433Dropped, s, a).0, Move(Line433Dropped, s, a).1)
  {
    LocksHold(s);
    StepKeepsHoldings(Line433Dropped, s, a);
    forall t ensures SoleHolder(Step(Line433Dropped, s, a), t) {
      StepKeepsSole(Line433Dropped, s, a, t);
    }
    HoldingsLock(Step(Line433Dropped, s, a));
  }

  lemma {:induction false} SoundSpares(v: Variant, s: State, run: seq<Action>, t: TableId)
    requires Sound(v, s, run)
    ensures Spared(v, s, run, t)
  {
    if run != [] {
      SoundPrefix(v, s, run);
      SoundSpares(v, s, run[..|run| - 1], t);
    }
  }

  /** On every run that starts at rest, whatever the clients send and however
      they interleave: the lock invariant holds. For the code as written this is
      so as long as no GET misses; without line 433 it is always so. */
  lemma {:induction false} LocksOnEveryRun(v: Variant, s: State, run: seq<Action>)
    requires AtRest(s) && Sound(v, s, run)
    ensures LockInv(After(v, s, run))
  {
    HoldingsOnEveryRun(v, s, run);
    forall t ensures SoleHolder(After(v, s, run), t) {
      SoundSpares(v, s, run, t);
      SoleOnEveryRun(v, s, run, t);
    }
    HoldingsLock(After(v, s, run));
  }

  // ----- ownership on every run -------------------------------------------

  /** A table's owner is exactly the client holding it, so that no two clients hold it. */
  predicate OwnerIsHolder(s: State, t: TableId) {
    && (forall c | c in s.clients && t in s.tables :: s.tables[t].owner == Some(c) <==> t in Held(s.clients[c]))
    && (forall c, d | c in s.clients && d in s.clients && t in Held(s.clients[c]) && t in Held(s.clients[d]) :: c == d)
  }

  predicate OwnersAreHolders(s: State) {
    forall t | t in s.tables :: OwnerIsHolder(s, t)
  }

  /** No two clients hold the same table. */
  predicate HoldingsAreDisjoint(s: State) {
    forall c, d | c in s.clients && d in s.clients && c != d :: Held(s.clients[c]) !! Held(s.clients[d])
  }

  /** Outside transactions and autocommit operations nothing is held, and what a
      COMMIT or abort has not processed yet still is. */
  predicate HoldingsFollowPhase(s: State) {
    forall c | c in s.clients ::
      && (!s.clients[c].inTx && !InAutocommit(s.clients[c].pc) ==> Held(s.clients[c]) == {})
      && (s.clients[c].pc.Releasing? ==> Held(s.clients[c]) == s.clients[c].pc.todo <= s.clients[c].locked)
  }

  lemma SoleIsOwner(s: State, t: TableId)
    requires HoldInv(s) && SoleHolder(s, t)
    ensures OwnerIsHolder(s, t)
  {
  }

  lemma PhasesHold(s: State)
    requires HoldInv(s)
    ensures HoldingsFollowPhase(s)
  {
    forall c | c in s.clients ensures ThreadOk(s, s.clients[c]) {
    }
  }

  /** On every run, of the code as written too: the holdings follow the code's own
      sets, and each table on which no GET has missed is owned by exactly the client
      that holds it. */
  lemma {:induction false} OwnershipOnEveryRun(v: Variant, s: State, run: seq<Action>)
    requires AtRest(s) && Legal(v, s, run)
    ensures HoldingsFollowPhase(After(v, s, run))
    ensures forall t | Spared(v, s, run, t) :: OwnerIsHolder(After(v, s, run), t)
  {
    HoldingsOnEveryRun(v, s, run);
    PhasesHold(After(v, s, run));
    forall t | Spared(v, s, run, t) ensures OwnerIsHolder(After(v, s, run), t) {
      SoleOnEveryRun(v, s, run, t);
      SoleIsOwner(After(v, s, run), t);
    }
  }

  /** Where no GET has missed at all, so is every table, and holdings are disjoint. */
  lemma {:induction false} ExclusiveOnSoundRuns(v: Variant, s: State, run: seq<Action>)
    requires AtRest(s) && Sound(v, s, run)
    ensures OwnersAreHolders(After(v, s, run)) && HoldingsAreDisjoint(After(v, s, run))
  {
    OwnershipOnEveryRun(v, s, run);
    var z := After(v, s, run);
    forall t ensures OwnerIsHolder(z, t) {
      SoundSpares(v, s, run, t);
    }
    OwnersExclude(z);
  }

  lemma OwnersExclude(z: State)
    requires forall t :: OwnerIsHolder(z, t)
    ensures HoldingsAreDisjoint(z)
  {
    forall c, d | c in z.clients && d in z.clients && c != d ensures Held(z.clients[c]) !! Held(z.clients[d]) {
      forall t | t in Held(z.clients[c]) ensures t !in Held(z.clients[d]) {
        assert OwnerIsHolder(z, t);
      }
    }
  }
}
