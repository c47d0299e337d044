/** What the session loop does by itself, step by step and in any state: LOGIN, sessions
    that have not logged in, lines that say nothing, and clients that hang up. */
module Loop {
  import opened Engine
  import opened Messages
  import opened Runs
  import opened Wrappers

  /** The client's thread rolls its transaction back, if there is one, and then replies,
      or leaves. */
  function Failing(me: Client, e: Ending): Client {
    if me.inTx then me.(pc := Releasing(false, me.locked, None, e))
    else
      me.(pc := if e.close then Closed else Idle, locked := {},
          sent := me.sent + if e.reply.Some? then [e.reply.value] else [])
  }

  predicate IsLogin(p: Parsed) {
    p.Good? && p.m.kind == LOGIN
  }

  /** A LOGIN always succeeds, also for those who are logged in and inside a
      transaction, which goes on. */
  lemma LoginSucceeds(v: Variant, s: State, c: ClientId, text: string, p: Parsed)
    requires !s.crashed && c in s.clients && s.clients[c].pc == Idle
    requires Parse(text) == p && IsLogin(p)
    ensures Enabled(s, Act(c, Request(text)))
    ensures var me := s.clients[c];
            Step(v, s, Act(c, Request(text))) ==
              s.(clients := s.clients[c := me.(loggedIn := true, lines := me.lines + 1, sent := me.sent + [Okay])])
  {
    var me := s.clients[c];
    LoginStepTo(v, s, c, text, p, me.(loggedIn := true, lines := me.lines + 1, sent := me.sent + [Okay]));
  }

  lemma LoginStepTo(v: Variant, s: State, c: ClientId, text: string, p: Parsed, cl: Client)
    requires !s.crashed && c in s.clients && s.clients[c].pc == Idle && Parse(text) == p && IsLogin(p)
    requires var me := s.clients[c]; cl == me.(loggedIn := true, lines := me.lines + 1, sent := me.sent + [Okay])
    ensures Enabled(s, Act(c, Request(text)))
    ensures Step(v, s, Act(c, Request(text))) == s.(clients := s.clients[c := cl])
  {
    LoginServes(s.clients[c], s.registry, p, cl);
    RequestStep(v, s, c, text, p, cl);
  }

  lemma LoginServes(me: Client, registry: map<string, TableId>, p: Parsed, cl: Client)
    requires me.pc == Idle && IsLogin(p)
    requires cl == me.(loggedIn := true, lines := me.lines + 1, sent := me.sent + [Okay])
    ensures Serve(me, registry, p) == Some(cl)
  {
  }

  /** Before a LOGIN any other message gets one ERROR and ends the session. */
  lemma StrangersAreShownOut(v: Variant, s: State, c: ClientId, text: string, p: Parsed)
    requires !s.crashed && c in s.clients && s.clients[c].pc == Idle && !s.clients[c].loggedIn
    requires Parse(text) == p && p.Good? && !IsLogin(p)
    ensures Enabled(s, Act(c, Request(text)))
    ensures var me := s.clients[c];
            Step(v, s, Act(c, Request(text))) ==
              s.(clients := s.clients[c := Failing(me.(lines := me.lines + 1, sent := me.sent + [Error(NotLoggedIn)]), Ending(None, true))])
  {
    var me := s.clients[c];
    StrangerStepTo(v, s, c, text, p, Failing(me.(lines := me.lines + 1, sent := me.sent + [Error(NotLoggedIn)]), Ending(None, true)));
  }

  lemma StrangerStepTo(v: Variant, s: State, c: ClientId, text: string, p: Parsed, cl: Client)
    requires !s.crashed && c in s.clients && s.clients[c].pc == Idle && !s.clients[c].loggedIn
    requires Parse(text) == p && p.Good? && !IsLogin(p)
    requires var me := s.clients[c];
             cl == Failing(me.(lines := me.lines + 1, sent := me.sent + [Error(NotLoggedIn)]), Ending(None, true))
    ensures Enabled(s, Act(c, Request(text)))
    ensures Step(v, s, Act(c, Request(text))) == s.(clients := s.clients[c := cl])
  {
    StrangerServes(s.clients[c], s.registry, p, cl);
    RequestStep(v, s, c, text, p, cl);
  }

  lemma StrangerServes(me: Client, registry: map<string, TableId>, p: Parsed, cl: Client)
    requires me.pc == Idle && !me.loggedIn && p.Good? && !IsLogin(p)
    requires cl == Failing(me.(lines := me.lines + 1, sent := me.sent + [Error(NotLoggedIn)]), Ending(None, true))
    ensures Serve(me, registry, p) == Some(cl)
  {
    assert me.sent + [Error(NotLoggedIn)] + [] == me.sent + [Error(NotLoggedIn)];
  }

  /** A line that says nothing gets one ERROR, after a rollback if there is a
      transaction, and the session stays open. */
  lemma BadLinesFail(v: Variant, s: State, c: ClientId, text: string, p: Parsed)
    requires !s.crashed && c in s.clients && s.clients[c].pc == Idle && Parse(text) == p && p.Bad?
    ensures Enabled(s, Act(c, Request(text)))
    ensures var me := s.clients[c];
            Step(v, s, Act(c, Request(text))) ==
              s.(clients := s.clients[c := Failing(me.(lines := me.lines + 1), Ending(Some(Error(BadLine(p.why))), false))])
  {
    var me := s.clients[c];
    BadStepTo(v, s, c, text, p, Failing(me.(lines := me.lines + 1), Ending(Some(Error(BadLine(p.why))), false)));
  }

  lemma BadStepTo(v: Variant, s: State, c: ClientId, text: string, p: Parsed, cl: Client)
    requires !s.crashed && c in s.clients && s.clients[c].pc == Idle && Parse(text) == p && p.Bad?
    requires var me := s.clients[c]; cl == Failing(me.(lines := me.lines + 1), Ending(Some(Error(BadLine(p.why))), false))
    ensures Enabled(s, Act(c, Request(text)))
    ensures Step(v, s, Act(c, Request(text))) == s.(clients := s.clients[c := cl])
  {
    BadServes(s.clients[c], s.registry, p, cl);
    RequestStep(v, s, c, text, p, cl);
  }

  lemma BadServes(me: Client, registry: map<string, TableId>, p: Parsed, cl: Client)
    requires me.pc == Idle && p.Bad?
    requires cl == Failing(me.(lines := me.lines + 1), Ending(Some(Error(BadLine(p.why))), false))
    ensures Serve(me, registry, p) == Some(cl)
  {
  }

  /** A client that hangs up gets nothing; its transaction is rolled back. */
  lemma HangingUpCloses(v: Variant, s: State, c: ClientId)
    requires !s.crashed && c in s.clients && s.clients[c].pc == Idle
    ensures Enabled(s, Act(c, Eof))
    ensures Step(v, s, Act(c, Eof)) == s.(clients := s.clients[c := Failing(s.clients[c], Ending(None, true))])
  {
    assert s.clients[c].sent + [] == s.clients[c].sent;
  }
}
