/** Building runs step by step. */
module Runs {
  import opened Codec
  import opened Engine
  import opened Messages
  import opened Requests
  import opened Wrappers

  /** Running on. */
  lemma {:induction false} Extend(v: Variant, s: State, run: seq<Action>, a: Action)
    requires Legal(v, s, run) && Enabled(After(v, s, run), a)
    ensures Legal(v, s, run + [a]) && After(v, s, run + [a]) == Step(v, After(v, s, run), a)
  {
    assert (run + [a])[..|run|] == run;
  }

  /** Two more actions of a run. */
  lemma {:induction false} ExtendTwice(v: Variant, s: State, run: seq<Action>, a: Action, b: Action)
    requires Legal(v, s, run) && Enabled(After(v, s, run), a) && Enabled(Step(v, After(v, s, run), a), b)
    ensures Legal(v, s, run + [a, b]) && After(v, s, run + [a, b]) == Step(v, Step(v, After(v, s, run), a), b)
  {
    Extend(v, s, run, a);
    Extend(v, s, run + [a], b);
    assert run + [a] + [b] == run + [a, b];
  }

  lemma {:induction false} Single(v: Variant, s: State, a: Action)
    requires Enabled(s, a)
    ensures Legal(v, s, [a]) && After(v, s, [a]) == Step(v, s, a)
  {
    Extend(v, s, [], a);
    assert [] + [a] == [a];
  }

  lemma {:induction false} LastAction(v: Variant, s: State, run: seq<Action>)
    requires Legal(v, s, run) && run != []
    ensures var n := |run| - 1;
            && Legal(v, s, run[..n]) && Enabled(After(v, s, run[..n]), run[n])
            && After(v, s, run) == Step(v, After(v, s, run[..n]), run[n])
  {
  }

  /** A run followed by a run. */
  lemma {:induction false} Append(v: Variant, s: State, run: seq<Action>, more: seq<Action>)
    requires Legal(v, s, run) && Legal(v, After(v, s, run), more)
    ensures Legal(v, s, run + more) && After(v, s, run + more) == After(v, After(v, s, run), more)
    decreases |more|
  {
    if more == [] {
      assert run + more == run;
    } else {
      var n, y := |more| - 1, After(v, s, run);
      LastAction(v, y, more);
      Append(v, s, run, more[..n]);
      AppendOne(v, s, run, more, After(v, y, more[..n]));
    }
  }

  lemma {:induction false} AppendOne(v: Variant, s: State, run: seq<Action>, more: seq<Action>, z: State)
    requires more != [] && Legal(v, s, run + more[..|more| - 1]) && After(v, s, run + more[..|more| - 1]) == z
    requires Enabled(z, more[|more| - 1])
    ensures Legal(v, s, run + more) && After(v, s, run + more) == Step(v, z, more[|more| - 1])
  {
    var n := |more| - 1;
    assert run + more == run + more[..n] + [more[n]];
    Extend(v, s, run + more[..n], more[n]);
  }

  /** The request lines of a run, and who sent them. */
  function RequestsOf(run: seq<Action>): seq<(ClientId, string)> {
    if run == [] then []
    else RequestsOf(run[..|run| - 1]) + (if run[|run| - 1].input.Request? then [(run[|run| - 1].c, run[|run| - 1].input.text)] else [])
  }

  lemma {:induction false} RequestsJoin(xs: seq<Action>, ys: seq<Action>)
    ensures RequestsOf(xs + ys) == RequestsOf(xs) + RequestsOf(ys)
  {
    if ys == [] {
      assert xs + ys == xs;
    } else {
      var n := |ys| - 1;
      assert (xs + ys)[..|xs| + n] == xs + ys[..n];
      RequestsJoin(xs, ys[..n]);
    }
  }

  lemma OneAsks(a: Action)
    requires a.input.Request?
    ensures RequestsOf([a]) == [(a.c, a.input.text)]
  {
    assert [a][..0] == [];
  }

  lemma LastAsks(a: Action, b: Action)
    requires !a.input.Request? && b.input.Request?
    ensures RequestsOf([a, b]) == [(b.c, b.input.text)]
  {
    assert [a] + [b] == [a, b] && [a][..0] == [];
    RequestsJoin([a], [b]);
    OneAsks(b);
  }

  /** A line that is served without a crash changes its own client only. */
  lemma RequestStep(v: Variant, s: State, c: ClientId, text: string, p: Parsed, cl: Client)
    requires !s.crashed && c in s.clients && s.clients[c].pc == Idle
    requires Parse(text) == p && Serve(s.clients[c], s.registry, p) == Some(cl)
    ensures Enabled(s, Act(c, Request(text)))
    ensures Step(v, s, Act(c, Request(text))) == s.(clients := s.clients[c := cl])
  {
  }

  lemma ConnectStep(v: Variant, s: State, c: ClientId)
    requires !s.crashed && c !in s.clients
    ensures Enabled(s, Act(c, Connect))
    ensures Step(v, s, Act(c, Connect)) == s.(clients := s.clients[c := NEW_CLIENT])
  {
  }

  function LoginLine(user: string): string {
    Line(Content(LOGIN, [user]))
  }

  /** A session that has just logged in. */
  const LOGGED_IN := NEW_CLIENT.(loggedIn := true, lines := 1, sent := [Okay])

  lemma LoginStep(v: Variant, s: State, c: ClientId, user: string)
    requires !s.crashed && c in s.clients && s.clients[c] == NEW_CLIENT
    requires IsIdentifier(user) && |LoginLine(user)| <= MAX_ENCODED_LEN
    ensures Enabled(s, Act(c, Request(LoginLine(user))))
    ensures Step(v, s, Act(c, Request(LoginLine(user)))) == s.(clients := s.clients[c := LOGGED_IN])
  {
    NameParses(LOGIN, user);
    LoginServed(s.registry, Content(LOGIN, [user]));
    RequestStep(v, s, c, LoginLine(user), Good(Content(LOGIN, [user])), LOGGED_IN);
  }

  lemma LoginServed(registry: map<string, TableId>, m: Content)
    requires m.kind == LOGIN
    ensures Serve(NEW_CLIENT, registry, Good(m)) == Some(LOGGED_IN)
  {
    assert NEW_CLIENT.sent + [Okay] == [Okay];
  }

  /** A new client connects and logs in. */
  lemma {:induction false} Arrives(v: Variant, s: State, run: seq<Action>, c: ClientId, user: string) returns (run': seq<Action>)
    requires Legal(v, s, run) && !After(v, s, run).crashed && c !in After(v, s, run).clients
    requires IsIdentifier(user) && |LoginLine(user)| <= MAX_ENCODED_LEN
    ensures Legal(v, s, run')
    ensures var y := After(v, s, run); After(v, s, run') == y.(clients := y.clients[c := LOGGED_IN])
    ensures RequestsOf(run') == RequestsOf(run) + [(c, LoginLine(user))]
  {
    var y := After(v, s, run);
    var a, b := Act(c, Connect), Act(c, Request(LoginLine(user)));
    ConnectStep(v, y, c);
    var y1 := y.(clients := y.clients[c := NEW_CLIENT]);
    LoginStep(v, y1, c, user);
    ExtendTwice(v, s, run, a, b);
    run' := run + [a, b];
    RequestsJoin(run, [a, b]);
    LastAsks(a, b);
    assert y1.clients[c := LOGGED_IN] == y.clients[c := LOGGED_IN];
  }
}
