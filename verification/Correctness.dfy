/** The main theorems together, for every run of a server that starts empty. */
module Correctness {
  import opened Accounts
  import opened Conversation
  import opened Deadlock
  import opened Engine
  import opened History
  import opened Holdings
  import opened Locks
  import opened Replies
  import opened Serial
  import opened SerialSteps
  import opened Sessions
  import opened Values

  /** The empty server meets every start condition. */
  lemma EmptyServerStarts()
    ensures AtRest(EMPTY_SERVER) && ValuesOk(EMPTY_SERVER) && SetsHaveValues(EMPTY_SERVER)
    ensures AllSendReplies(EMPTY_SERVER) && AllInStep(EMPTY_SERVER) && !EMPTY_SERVER.crashed
    ensures CommittedDb(EMPTY_SERVER) == map[]
  {
  }

  /** Client `e` is not in a lock call it cannot leave: it can step now, or its next line can. */
  ghost predicate CanGoOn(z: State, e: ClientId) {
    && e in z.clients && !Blocked(z, z.clients[e])
    && ((z.clients[e].pc == Idle && z.clients[e].inTx) || exists pick :: Enabled(z, Act(e, Go(pick))))
  }

  /** At most two waits-for edges lead from `c` to a client that can go on. */
  ghost predicate IsNotStuck(z: State, c: ClientId) {
    exists d, e :: WaitsFor(z, c, d) && (e == d || WaitsFor(z, d, e)) && CanGoOn(z, e)
  }

  /** On every run, of the code as written too. */
  lemma {:induction false} HoldsOnEveryRun(v: Variant, run: seq<Action>)
    requires Legal(v, EMPTY_SERVER, run)
    ensures var z := After(v, EMPTY_SERVER, run);
            && RegistryOk(z) && HoldingsFollowPhase(z) && ValuesOk(z) && AllInStep(z) && AllSendReplies(z)
    ensures forall t | Spared(v, EMPTY_SERVER, run, t) :: OwnerIsHolder(After(v, EMPTY_SERVER, run), t)
  {
    EmptyServerStarts();
    HoldingsOnEveryRun(v, EMPTY_SERVER, run);
    OwnershipOnEveryRun(v, EMPTY_SERVER, run);
    ValuesOnEveryRun(v, EMPTY_SERVER, run);
    SessionsInLockStep(v, EMPTY_SERVER, run);
    RepliesOnEveryRun(v, EMPTY_SERVER, run);
  }

  /** Nobody waits for ever on the locks alone. */
  lemma {:induction false} NobodyIsStuck(v: Variant, run: seq<Action>, c: ClientId)
    requires Legal(v, EMPTY_SERVER, run)
    requires var z := After(v, EMPTY_SERVER, run); !z.crashed && c in z.clients && Blocked(z, z.clients[c])
    ensures IsNotStuck(After(v, EMPTY_SERVER, run), c)
  {
    EmptyServerStarts();
    var d, e := NoDeadlock(v, EMPTY_SERVER, run, c);
    assert CanGoOn(After(v, EMPTY_SERVER, run), e);
  }

  /** And on every run without line 433 or without a GET that misses: each table is owned
      by exactly its holder, and the run could have been serial. */
  lemma {:induction false} HoldsOnSoundRuns(v: Variant, run: seq<Action>)
    requires Sound(v, EMPTY_SERVER, run)
    ensures var z, log := After(v, EMPTY_SERVER, run), HistoryOf(v, EMPTY_SERVER, run).log;
            && OwnersAreHolders(z) && HoldingsAreDisjoint(z)
            && ReplayAgrees(map[], log) && Replay(map[], log).Keys == z.registry.Keys
            && (NoCommitDue(z) ==> Replay(map[], log) == CommittedDb(z))
  {
    EmptyServerStarts();
    ExclusiveOnSoundRuns(v, EMPTY_SERVER, run);
    EveryRunIsSerializable(v, EMPTY_SERVER, run);
  }

  /** What a client has lived through is then explained by the serial replay: its lines,
      its replies and the values `ws` it has read tell its units in a history that
      replays one unit after the other. */
  lemma {:induction false} ClientsSeeSerialRuns(v: Variant, run: seq<Action>, c: ClientId) returns (ws: seq<string>)
    requires Sound(v, EMPTY_SERVER, run) && !After(v, EMPTY_SERVER, run).crashed
    ensures var h := HistoryOf(v, EMPTY_SERVER, run);
            ReplayAgrees(map[], h.log) && AccountOk(After(v, EMPTY_SERVER, run), h, c, Heard(run, c), ws)
  {
    HoldsOnSoundRuns(v, run);
    ws := HistoryIsLived(v, run, c);
  }
}
