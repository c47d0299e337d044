/** A table: committed entries, proposed entries and a mutex (table.cpp). */
module Tables {
  import opened Wrappers

  type Row = map<string, string>

  /** The two maps of a table. */
  datatype Store = Store(committed: Row, proposed: Row)

  const EMPTY := Store(map[], map[])

  function Put(s: Store, k: string, v: string): Store {
    s.(proposed := s.proposed[k := v])
  }

  predicate HasKey(s: Store, k: string) {
    k in s.committed || k in s.proposed
  }

  /** `Table::get`: the committed value wins over the proposed one. */
  function Fetch(s: Store, k: string): (r: Option<string>)
    ensures r.Some? <==> HasKey(s, k)
  {
    if k in s.committed then Some(s.committed[k])
    else if k in s.proposed then Some(s.proposed[k])
    else None
  }

  /** `Table::commit_changes`: the proposals stay behind. */
  function Commit(s: Store): Store {
    s.(committed := s.committed + s.proposed)
  }

  function Rollback(s: Store): Store {
    s.(proposed := map[])
  }

  /** The table object. Its address, of the allocator's choice, tells it from other
      tables. The mutex is an optional owner. Unlocking is what a
      default mutex does in practice: it frees the mutex, whoever calls. */
  class Table {
    const name: string
    const address: nat
    var owner: Option<nat>
    var committed: Row
    var proposed: Row

    function State(): Store
      reads this
    {
      Store(committed, proposed)
    }

    constructor (name: string, address: nat)
      ensures this.name == name && this.address == address && owner == None && State() == EMPTY
    {
      this.name, this.address := name, address;
      owner, committed, proposed := None, map[], map[];
    }

    /** Returns only once the mutex is free; waiting is a matter of the scheduler. */
    method Lock(me: nat)
      requires owner == None
      modifies this`owner
      ensures owner == Some(me)
    {
      owner := Some(me);
    }

    method Unlock()
      modifies this`owner
      ensures owner == None
    {
      owner := None;
    }

    method TryLock(me: nat) returns (ok: bool)
      modifies this`owner
      ensures ok <==> old(owner) == None
      ensures owner == if ok then Some(me) else old(owner)
    {
      ok := owner == None;
      if ok {
        owner := Some(me);
      }
    }

    method Set(k: string, v: string)
      modifies this`proposed
      ensures State() == Put(old(State()), k, v)
    {
      proposed := proposed[k := v];
    }

    method Get(k: string) returns (r: Option<string>)
      ensures r == Fetch(State(), k)
    {
      if k in committed {
        return Some(committed[k]);
      } else if k in proposed {
        return Some(proposed[k]);
      }
      return None;
    }

    method Has(k: string) returns (b: bool)
      ensures b <==> HasKey(State(), k)
      ensures b <==> Fetch(State(), k).Some?
    {
      b := k in committed || k in proposed;
    }

    /** One entry at a time, in the arbitrary order of an unordered map. */
    method CommitChanges()
      modifies this`committed
      ensures State() == Commit(old(State()))
    {
      var todo := proposed.Keys;
      while todo != {}
        invariant todo <= proposed.Keys && proposed == old(proposed)
        invariant committed.Keys == old(committed).Keys + (proposed.Keys - todo)
        invariant forall k | k in committed ::
            committed[k] == if k in proposed && k !in todo then proposed[k] else old(committed)[k]
      {
        var k :| k in todo;
        committed := committed[k := proposed[k]];
        todo := todo - {k};
      }
      assert committed == old(committed) + proposed;
    }

    method RollbackChanges()
      modifies this`proposed
      ensures State() == Rollback(old(State()))
    {
      proposed := map[];
    }
  }

  // ----- keeping old proposals is harmless --------------------------------

  /** `s` shows `pending` as its uncommitted changes: every pending change is
      proposed, and every other proposal repeats what is committed already. */
  predicate Shows(s: Store, pending: Row) {
    && (forall k | k in pending :: k in s.proposed && s.proposed[k] == pending[k])
    && (forall k | k in s.proposed && k !in pending :: k in s.committed && s.committed[k] == s.proposed[k])
  }

  lemma ShownRead(s: Store, pending: Row, k: string)
    requires Shows(s, pending)
    ensures Fetch(s, k) == Fetch(Store(s.committed, pending), k)
  {
  }

  lemma ShownPut(s: Store, pending: Row, k: string, v: string)
    requires Shows(s, pending)
    ensures Shows(Put(s, k, v), pending[k := v])
  {
  }

  /** Committing applies exactly the pending changes, and leaves none pending. */
  lemma ShownCommit(s: Store, pending: Row)
    requires Shows(s, pending)
    ensures s.committed + s.proposed == s.committed + pending
    ensures Commit(s).committed == s.committed + pending
    ensures Shows(Commit(s), map[])
  {
    assert forall k | k in s.proposed :: (s.committed + s.proposed)[k] == (s.committed + pending)[k];
  }

  datatype Call =
    | CallSet(key: string, value: string)
    | CallGet(key: string)
    | CallHas(key: string)
    | CallCommit
    | CallRollback

  /** What a call lets its caller see; None when it returns nothing or throws. */
  function Answer(s: Store, c: Call): Option<string> {
    match c
    case CallGet(k) => Fetch(s, k)
    case CallHas(k) => Some(if HasKey(s, k) then "true" else "false")
    case _ => None
  }

  function CallEffect(s: Store, c: Call, clears: bool): Store {
    match c
    case CallSet(k, v) => Put(s, k, v)
    case CallCommit => if clears then Rollback(Commit(s)) else Commit(s)
    case CallRollback => Rollback(s)
    case _ => s
  }

  function StoreAfter(calls: seq<Call>, clears: bool): Store {
    if calls == [] then EMPTY
    else CallEffect(StoreAfter(calls[..|calls| - 1], clears), calls[|calls| - 1], clears)
  }

  function Answers(calls: seq<Call>, clears: bool): seq<Option<string>> {
    if calls == [] then []
    else
      var n := |calls| - 1;
      Answers(calls[..n], clears) + [Answer(StoreAfter(calls[..n], clears), calls[n])]
  }

  lemma EffectsAgree(s: Store, t: Store, c: Call)
    requires s.committed == t.committed && Shows(s, t.proposed)
    ensures Answer(s, c) == Answer(t, c)
    ensures CallEffect(s, c, false).committed == CallEffect(t, c, true).committed
    ensures Shows(CallEffect(s, c, false), CallEffect(t, c, true).proposed)
  {
    match c
    case CallGet(k) => ShownRead(s, t.proposed, k);
    case CallHas(k) => ShownRead(s, t.proposed, k);
    case CallSet(k, v) => ShownPut(s, t.proposed, k, v);
    case CallCommit => ShownCommit(s, t.proposed);
    case CallRollback =>
  }

  /** Over every history, the table that keeps its proposals after a commit is
      indistinguishable from one that clears them: same answers, same committed
      map, and leftovers that only repeat committed entries. */
  lemma {:induction false} KeepingIsClearing(calls: seq<Call>)
    ensures Answers(calls, false) == Answers(calls, true)
    ensures StoreAfter(calls, false).committed == StoreAfter(calls, true).committed
    ensures Shows(StoreAfter(calls, false), StoreAfter(calls, true).proposed)
  {
    if calls != [] {
      var n := |calls| - 1;
      KeepingIsClearing(calls[..n]);
      EffectsAgree(StoreAfter(calls[..n], false), StoreAfter(calls[..n], true), calls[n]);
    }
  }

  /** A table that looked at proposals first. */
  function ProposalFirst(s: Store, k: string): Option<string> {
    if k in s.proposed then Some(s.proposed[k])
    else if k in s.committed then Some(s.committed[k])
    else None
  }

  /** After any history, reading differs from a proposal-first table exactly at
      keys that are committed and have a different change still pending. */
  lemma ReadsOwnWrite(calls: seq<Call>, k: string)
    ensures var s, t := StoreAfter(calls, false), StoreAfter(calls, true);
            Fetch(s, k) != ProposalFirst(s, k) <==>
              k in t.committed && k in t.proposed && t.committed[k] != t.proposed[k]
  {
    KeepingIsClearing(calls);
  }
}
