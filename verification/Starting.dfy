// A new session can always be had: from any state of the client with nothing buffered, some course of
// events makes Listen return the READY of a new session and hold it, also when the server refuses to
// resume the old one first.
module Starting {
  import opened Protocol
  import opened Discord
  import opened NextProtocol
  import opened Scheduling
  import opened Clients
  import opened Resuming

  // The READY data of a session.
  predicate Names(d: Data, id: string) {
    d.Object? && d.sessionId == Has(id)
  }

  function ReadyOf(d: Data): Payload {
    Payload(DISPATCH, d, 1, READY)
  }

  // Says that the session cannot be resumed.
  const INVALID := Payload(INVALID_SESSION, Missing, 0, Named(""))

  // The server opens a session and delivers its READY, which is read.
  function AcceptTurns(id: string, d: Data): seq<Turn> {
    [Goes([AcceptIdentify(id, d), Deliver], ReadBegin)] + READ_REST
  }

  // Identify is sent, and answered so.
  function IdentifyTurns(id: string, d: Data): seq<Turn> {
    [Goes([], Tick)] + AcceptTurns(id, d)
  }

  // The server refuses to resume, and the client waits a few seconds.
  const REFUSE := [Goes([Control(INVALID)], ReadBegin)] + READ_REST + [Goes([], Tick)]

  // A new connection, and, if a session is held, a Resume that is refused; then a new session.
  function StartTurns(hello: Payload, session: string, id: string, d: Data): seq<Turn> {
    [Goes([], Tick), Goes([Control(hello)], Tick)]
    + (if session == "" then [] else [Goes([], Tick)] + REFUSE)
    + IdentifyTurns(id, d)
  }

  // The world after a new session was opened and its READY read.
  function Opening(w: World, id: string, d: Data, rest: seq<Turn>): World {
    w.(turns := rest, logs := w.logs[id := [Entry(READY, d)]], link := ReadUpTo(id, 1))
  }

  // ---------- Scripts at work ----------

  lemma OpenSession(u: World, id: string, d: Data)
    requires u.link == FRESH_LINK.(request := IdentifyRequest) && id != "" && id !in u.logs && Names(d, id)
    ensures ActAll(u, [AcceptIdentify(id, d), Deliver])
            == u.(logs := u.logs[id := [Entry(READY, d)]], link := Link(NoRequest, Some(id), 0, 1, [ReadyOf(d)]))
  {
    var actions := [AcceptIdentify(id, d), Deliver];
    var v := Act(u, actions[0]);
    assert v == u.(logs := u.logs[id := [Entry(READY, d)]], link := ReadUpTo(id, 0));
    assert actions[1..] == [Deliver] && [Deliver][1..] == [];
    assert ActAll(u, actions) == ActAll(v, [Deliver]) == ActAll(Act(v, Deliver), []) == Act(v, Deliver);
  }

  lemma ReadyArrives(l: Line, id: string, d: Data, rest: seq<Turn>)
    requires Good(l) && !l.world.done && l.world.turns == AcceptTurns(id, d) + rest
    requires id != "" && id !in l.world.logs && Names(d, id) && l.world.link == FRESH_LINK.(request := IdentifyRequest)
    ensures var (s, u) := NextFrom(l);
            Reply(s) == Some(ReadyOf(d)) && LineAfter(s, u) == l.(world := Opening(l.world, id, d, rest))
  {
    OpenSession(l.world.(turns := l.world.turns[1..]), id, d);
    assert [ReadyOf(d)][1..] == [];
    assert l.world.turns[3..] == rest;
    EventReturns(l);
  }

  lemma Identifies(l: Line, session: string, a: Attempt, id: string, d: Data, rest: seq<Turn>)
    requires Good(l) && !l.world.done && l.world.turns == IdentifyTurns(id, d) + rest
    requires id != "" && id !in l.world.logs && Names(d, id) && l.world.link == FRESH_LINK
    ensures var o := Identified(l, session, a);
            && o.line == l.(world := Opening(l.world, id, d, rest)) && o.session == session
            && o.first == Some(ReadyOf(d)) && o.attempt.success == Some(false)
  {
    assert l.world.turns == [Goes([], Tick)] + (AcceptTurns(id, d) + rest);
    QuietTurn(l.world, AcceptTurns(id, d) + rest);
    SendOk(l.world, IdentifyRequest);
    ReadyArrives(l.(world := SendTo(l.world, IdentifyRequest)), id, d, rest);
  }

  lemma RefusalArrives(l: Line, r: Request, rest: seq<Turn>)
    requires Good(l) && !l.world.done && l.world.turns == REFUSE + rest
    requires l.world.link == FRESH_LINK.(request := r)
    ensures var (s, u) := NextFrom(l);
            && Reply(s) == Some(INVALID)
            && LineAfter(s, u) == l.(world := l.world.(turns := [Goes([], Tick)] + rest, link := FRESH_LINK))
  {
    var u := l.world.(turns := l.world.turns[1..]);
    assert [Control(INVALID)][1..] == [];
    assert ActAll(u, [Control(INVALID)]) == ActAll(Act(u, Control(INVALID)), []) == Act(u, Control(INVALID));
    assert Act(u, Control(INVALID)).link.inbox == [INVALID] && [INVALID][1..] == [];
    assert l.world.turns[3..] == [Goes([], Tick)] + rest;
    EventReturns(l);
  }

  lemma IsRefused(l: Line, session: string, n: int, a: Attempt, rest: seq<Turn>)
    requires Good(l) && !l.world.done && l.world.turns == [Goes([], Tick)] + (REFUSE + rest)
    requires l.world.link == FRESH_LINK
    ensures var (o, refused) := Resumed(l, session, n, a);
            refused && o.line == l.(world := l.world.(turns := rest)) && o.session == ""
  {
    QuietTurn(l.world, REFUSE + rest);
    SendOk(l.world, ResumeRequest(session, n));
    var sent := l.(world := SendTo(l.world, ResumeRequest(session, n)));
    RefusalArrives(sent, ResumeRequest(session, n), rest);
    QuietTurn(l.world.(turns := [Goes([], Tick)] + rest), rest);
  }

  lemma StartsOver(l: Line, session: string, n: int, a: Attempt, id: string, d: Data, rest: seq<Turn>)
    requires Good(l) && !l.world.done && l.world.link == FRESH_LINK
    requires l.world.turns == (if session == "" then [] else [Goes([], Tick)] + REFUSE) + (IdentifyTurns(id, d) + rest)
    requires id != "" && id !in l.world.logs && Names(d, id)
    ensures var o := ShakeHands(l, session, n, a);
            && o.line == l.(world := Opening(l.world, id, d, rest)) && o.session == ""
            && o.first == Some(ReadyOf(d)) && o.attempt.success == Some(false)
  {
    var last := IdentifyTurns(id, d) + rest;
    if session == "" {
      assert l.world.turns == last;
      Identifies(l, session, a, id, d, rest);
    } else {
      assert l.world.turns == [Goes([], Tick)] + (REFUSE + last);
      IsRefused(l, session, n, a, last);
      RefusedGood(l, session, n, a);
      var (o, refused) := Resumed(l, session, n, a);
      Identifies(o.line, "", o.attempt, id, d, rest);
    }
  }

  lemma OpensAnew(w: World, hello: Payload, session: string, n: int, last: Option<Payload>, id: string, d: Data)
    requires Greeting(hello) && WfWorld(w) && !w.done && w.turns == StartTurns(hello, session, id, d)
    requires id != "" && id !in w.logs && Names(d, id)
    ensures var o := Open(w, session, n, last);
            && o.line == Line(Opening(w, id, d, []).(dials := w.dials + 1), false, FRESH_HISTORY)
            && o.session == "" && o.first == Some(ReadyOf(d)) && o.attempt.success == Some(false)
  {
    var afterHello := (if session == "" then [] else [Goes([], Tick)] + REFUSE) + (IdentifyTurns(id, d) + []);
    assert w.turns == [Goes([], Tick)] + ([Goes([Control(hello)], Tick)] + afterHello);
    OpenShakes(w, hello, session, n, last, afterHello);
    StartsOver(Line(w.(turns := afterHello, link := FRESH_LINK, dials := w.dials + 1), false, FRESH_HISTORY),
               session, n, FirstAttempt(session != "", last).(dialed := true, hello := Some(hello)), id, d, []);
  }

  // ---------- Listening ----------

  // Listen returns the READY of the session, which is then held, with just that event in its log.
  ghost predicate Starts(c: Client, id: string, d: Data)
    requires Clients.Inv(c)
  {
    var (e, msg) := Listen(c);
    && msg == Some(ReadyOf(d)) && e.session == id && e.number == 1
    && e.line.world.logs == c.line.world.logs[id := [Entry(READY, d)]]
    && |e.attempts| == |c.attempts| + 1 && e.attempts[|c.attempts|].success == Some(false)
    && CaughtUp(e) && e.buffered.None?
  }

  // The client just connected, its READY buffered.
  ghost predicate Connected(c: Client, e: Client, id: string, d: Data) {
    && e.conn.Some? && e.session == "" && e.buffered == Some(ReadyOf(d))
    && !e.line.world.done && e.line.world.link == ReadUpTo(id, 1)
    && e.line.world.logs == c.line.world.logs[id := [Entry(READY, d)]]
    && |e.attempts| == |c.attempts| + 1 && e.attempts[|c.attempts|].success == Some(false)
  }

  lemma ConnectsAnew(c: Client, hello: Payload, id: string, d: Data)
    requires Greeting(hello) && Clients.Inv(c) && c.conn.None?
    requires id != "" && id !in c.line.world.logs && Names(d, id)
    ensures var e := Under(c, StartTurns(hello, c.session, id, d));
            Clients.Inv(e) && Connected(c, Connect(e), id, d)
  {
    var turns := StartTurns(hello, c.session, id, d);
    EnteredOk(c, Context(turns, false));
    OpensAnew(Under(c, turns).line.world, hello, c.session, c.number, c.seen.last, id, d);
  }

  lemma TakesReady(c: Client, e: Client, id: string, d: Data)
    requires Clients.Inv(e) && Connected(c, e, id, d) && Names(d, id)
    ensures var (f, msg) := Listen(e);
            && msg == Some(ReadyOf(d)) && f.session == id && f.number == 1
            && f.line.world == e.line.world && f.attempts == e.attempts
            && Clients.Inv(f) && f.conn.Some? && f.buffered.None?
  {
    ListenOpen(e);
    ListenOk(e);
  }

  lemma ListensAnew(c: Client, hello: Payload, id: string, d: Data)
    requires Greeting(hello) && Clients.Inv(c) && c.conn.None?
    requires id != "" && id !in c.line.world.logs && Names(d, id)
    ensures var e := Under(c, StartTurns(hello, c.session, id, d));
            Clients.Inv(e) && Starts(e, id, d)
  {
    var e := Under(c, StartTurns(hello, c.session, id, d));
    ConnectsAnew(c, hello, id, d);
    ListenReconnects(e);
    TakesReady(c, Connect(e), id, d);
  }

  lemma StartingLasts(hello: Payload, session: string, id: string, d: Data)
    ensures Lasting(StartTurns(hello, session, id, d))
  {
  }

  // From any state of the client with no event buffered on an open connection, whether it holds a
  // session or not, and for any new session, some course of events in a context that lasts makes
  // Listen return its READY and hold it, over a new connection with any hello.
  lemma CanStart(c: Client, hello: Payload, id: string, d: Data) returns (ctx: Context)
    requires Clients.Inv(c) && (c.conn.Some? ==> c.buffered.None?)
    requires Greeting(hello) && id != "" && id !in c.line.world.logs && Names(d, id)
    ensures !ctx.done && Lasting(ctx.turns)
    ensures Clients.Inv(Entered(c, ctx)) && Starts(Entered(c, ctx), id, d)
  {
    var turns := StartTurns(hello, c.session, id, d);
    StartingLasts(hello, c.session, id, d);
    if c.conn.None? {
      ListensAnew(c, hello, id, d);
    } else {
      var rest := turns;
      turns := BREAK + rest;
      ReadingLasts();
      LastingAppend(BREAK, rest);
      ListensAnew(c.(conn := None, heartbeat := None), hello, id, d);
      EnteredOk(c, Context(turns, false));
      BreaksOff(c, rest);
      ListenOpen(Under(c, turns));
    }
    ctx := Context(turns, false);
  }

  // ---------- Following ----------

  lemma PublishArrives(u: World, session: string, e: Entry)
    requires session in u.logs && e.name != READY && u.link == ReadUpTo(session, |u.logs[session]|)
    ensures var n := |u.logs[session]|;
            ActAll(u, [Publish(session, e), Deliver]) ==
              u.(logs := u.logs[session := u.logs[session] + [e]],
                 link := Link(NoRequest, Some(session), n, n + 1, [Payload(DISPATCH, e.data, n + 1, e.name)]))
  {
    var actions := [Publish(session, e), Deliver];
    var v := Act(u, actions[0]);
    assert actions[1..] == [Deliver] && [Deliver][1..] == [];
    assert ActAll(u, actions) == ActAll(v, [Deliver]) == ActAll(Act(v, Deliver), []) == Act(v, Deliver);
  }

  // The next entry of a session with n of them.
  function NextEntry(e: Entry, n: nat): Payload {
    Payload(DISPATCH, e.data, n + 1, e.name)
  }

  function FollowTurns(session: string, e: Entry): seq<Turn> {
    [Goes([Publish(session, e), Deliver], ReadBegin)] + READ_REST
  }

  lemma NextArrives(l: Line, session: string, e: Entry)
    requires Good(l) && !l.world.done && l.world.turns == FollowTurns(session, e) && e.name != READY
    requires session in l.world.logs && l.world.link == ReadUpTo(session, |l.world.logs[session]|)
    ensures var (s, u) := NextFrom(l); var log := l.world.logs[session];
            && Reply(s) == Some(NextEntry(e, |log|))
            && LineAfter(s, u) ==
                 l.(world := l.world.(turns := [], logs := l.world.logs[session := log + [e]],
                                      link := ReadUpTo(session, |log| + 1)))
  {
    PublishArrives(l.world.(turns := l.world.turns[1..]), session, e);
    assert [NextEntry(e, |l.world.logs[session]|)][1..] == [];
    assert l.world.turns[3..] == [];
    EventReturns(l);
  }

  lemma TakesNext(c: Client, e: Entry)
    requires CaughtUp(c) && c.buffered.None? && c.number == |c.line.world.logs[c.session]|
    requires !c.line.world.done && c.line.world.turns == FollowTurns(c.session, e) && e.name != READY
    ensures var (d, event) := TakeEvent(c);
            && event == Some(NextEntry(e, c.number)) && d.session == c.session && d.number == c.number + 1
            && d.line.world.logs == c.line.world.logs[c.session := c.line.world.logs[c.session] + [e]]
            && d.line.world.link == ReadUpTo(c.session, d.number)
            && d.attempts == c.attempts && d.buffered.None? && d.conn.Some?
  {
    NextArrives(c.line, c.session, e);
  }

  // A client that has seen all there is of its session is given the next event as soon as there is
  // one, over the connection it has.
  lemma CanFollow(c: Client, e: Entry) returns (ctx: Context)
    requires CaughtUp(c) && c.buffered.None? && c.number == |c.line.world.logs[c.session]|
    requires e.name != READY && e.name != RESUMED
    ensures !ctx.done && Lasting(ctx.turns) && Clients.Inv(Entered(c, ctx))
    ensures var (d, msg) := Listen(Entered(c, ctx));
            && msg == Some(NextEntry(e, c.number)) && d.session == c.session && d.number == c.number + 1
            && d.line.world.logs == c.line.world.logs[c.session := c.line.world.logs[c.session] + [e]]
            && CaughtUp(d) && d.buffered.None? && d.attempts == c.attempts
  {
    ctx := Context(FollowTurns(c.session, e), false);
    EnteredOk(c, ctx);
    TakesNext(Entered(c, ctx), e);
    ListenOpen(Entered(c, ctx));
  }
}
