// A session can always be taken up where it was left: from any state of the client that holds one,
// with an entry of its log still to be shown, some course of events makes Listen return that entry,
// over a new connection if the old one is gone or fails.
module Resuming {
  import opened Protocol
  import opened Discord
  import opened NextProtocol
  import opened Scheduling
  import opened Clients

  // Any hello that decodes and announces a positive interval.
  predicate Greeting(p: Payload) {
    p.op == HELLO && p.data.Object? && p.data.heartbeatMillis.Has? && p.data.heartbeatMillis.content > 0
  }

  // What the scheduler's choice to let a frame arrive mentions; the frame is the link's.
  const SOME_FRAME := Payload(DISPATCH, Missing, 0, Named(""))

  // A turn in which the server acts, and then an operation succeeds or the scheduler moves on.
  function Goes(actions: seq<Action>, step: Step): Turn {
    Turn(actions, false, true, true, step)
  }

  const READ_REST := [Goes([], Arrive(SOME_FRAME)), Goes([], HeartbeatQuit)]

  // The next entry is delivered and read.
  const READ := [Goes([Deliver], ReadBegin)] + READ_REST

  // The server resumes the session and delivers the entry asked for, which is read.
  const REPLAY := [Goes([AcceptResume, Deliver], ReadBegin)] + READ_REST

  // The connection fails during a read, and is closed.
  const BREAK := [Goes([], ReadBegin), Goes([], ReadFail), Goes([], HeartbeatQuit), Goes([], Tick)]

  // A new connection, its hello, and a Resume that is accepted.
  function ResumeTurns(hello: Payload): seq<Turn> {
    DialTurns(hello) + REPLAY
  }

  // Dialing, the hello, and sending a handshake frame.
  function DialTurns(hello: Payload): seq<Turn> {
    [Goes([], Tick), Goes([Control(hello)], Tick), Goes([], Tick)]
  }

  // The link after the entries before `n` were replayed or sent, and read.
  function ReadUpTo(session: string, n: nat): Link {
    Link(NoRequest, Some(session), n, n, [])
  }

  // ---------- Scripts at work ----------

  // From an attached link with nothing on it, a delivery puts the next entry there.
  lemma DeliverTurn(u: World, session: string, n: nat)
    requires session in u.logs && n < |u.logs[session]| && u.link == ReadUpTo(session, n)
    ensures ActAll(u, [Deliver]) == u.(link := Link(NoRequest, Some(session), n, n + 1, [FrameAt(u.logs[session], n)]))
  {
    assert [Deliver][1..] == [];
    assert ActAll(u, [Deliver]) == ActAll(Act(u, Deliver), []) == Act(u, Deliver);
  }

  lemma ReadTurns(l: Line, session: string, n: nat, rest: seq<Turn>)
    requires Good(l) && !l.world.done && l.world.turns == READ + rest
    requires session in l.world.logs && n < |l.world.logs[session]| && l.world.link == ReadUpTo(session, n)
    ensures var (s, u) := NextFrom(l);
            && Reply(s) == Some(FrameAt(l.world.logs[session], n))
            && LineAfter(s, u) == l.(world := l.world.(turns := rest, link := ReadUpTo(session, n + 1)))
  {
    var f := FrameAt(l.world.logs[session], n);
    DeliverTurn(l.world.(turns := l.world.turns[1..]), session, n);
    assert [f][1..] == [];
    assert l.world.turns[3..] == rest;
    EventReturns(l);
  }

  lemma AcceptTurn(u: World, session: string, n: nat)
    requires session in u.logs && n < |u.logs[session]|
    requires u.link == FRESH_LINK.(request := ResumeRequest(session, n))
    ensures ActAll(u, [AcceptResume, Deliver])
            == u.(link := Link(NoRequest, Some(session), n, n + 1, [FrameAt(u.logs[session], n)]))
  {
    var v := Act(u, AcceptResume);
    assert v == u.(link := ReadUpTo(session, n));
    assert [AcceptResume, Deliver][1..] == [Deliver] && [Deliver][1..] == [];
    assert ActAll(u, [AcceptResume, Deliver]) == ActAll(v, [Deliver]) == ActAll(Act(v, Deliver), []) == Act(v, Deliver);
  }

  lemma ReplayTurns(l: Line, session: string, n: nat, rest: seq<Turn>)
    requires Good(l) && !l.world.done && l.world.turns == REPLAY + rest
    requires session in l.world.logs && n < |l.world.logs[session]|
    requires l.world.link == FRESH_LINK.(request := ResumeRequest(session, n))
    ensures var (s, u) := NextFrom(l);
            && Reply(s) == Some(FrameAt(l.world.logs[session], n))
            && LineAfter(s, u) == l.(world := l.world.(turns := rest, link := ReadUpTo(session, n + 1)))
  {
    var f := FrameAt(l.world.logs[session], n);
    AcceptTurn(l.world.(turns := l.world.turns[1..]), session, n);
    assert [f][1..] == [];
    assert l.world.turns[3..] == rest;
    EventReturns(l);
  }

  lemma HelloTurn(w: World, hello: Payload, rest: seq<Turn>)
    requires Greeting(hello) && !w.done && w.link == FRESH_LINK && w.turns == [Goes([Control(hello)], Tick)] + rest
    ensures ReadFrom(w) == (w.(turns := rest), Some(hello))
  {
    var u := w.(turns := rest);
    assert w.turns[1..] == rest;
    assert [Control(hello)][1..] == [];
    assert ActAll(u, [Control(hello)]) == ActAll(Act(u, Control(hello)), []) == Act(u, Control(hello));
    assert Act(u, Control(hello)).link.inbox == [hello] && [hello][1..] == [];
  }

  lemma QuietTurn(w: World, rest: seq<Turn>)
    requires !w.done && w.turns == [Goes([], Tick)] + rest
    ensures Lucky(w) && Advance(w) == w.(turns := rest)
  {
    assert w.turns[1..] == rest;
    Idle(w);
  }

  lemma ResumedTurns(l: Line, session: string, n: nat, a: Attempt, rest: seq<Turn>)
    requires Good(l) && !l.world.done && l.world.turns == [Goes([], Tick)] + (REPLAY + rest)
    requires session in l.world.logs && n < |l.world.logs[session]| && l.world.link == FRESH_LINK
    ensures var (o, refused) := Resumed(l, session, n, a);
            && !refused
            && o.line == l.(world := l.world.(turns := rest, link := ReadUpTo(session, n + 1)))
            && o.session == session && o.first == Some(FrameAt(l.world.logs[session], n))
            && o.attempt == a.(resumeSent := Some(ResumeFrame(session, n)), resumeReply := o.first, success := Some(true))
  {
    QuietTurn(l.world, REPLAY + rest);
    SendOk(l.world, ResumeRequest(session, n));
    ReplayTurns(l.(world := SendTo(l.world, ResumeRequest(session, n))), session, n, rest);
  }

  // An attempt that resumes, getting this answer.
  function ResumingAttempt(hello: Payload, session: string, n: nat, last: Option<Payload>, reply: Payload): Attempt {
    FirstAttempt(true, last).(dialed := true, hello := Some(hello), resumeSent := Some(ResumeFrame(session, n)),
                              resumeReply := Some(reply), success := Some(true))
  }

  // Dialing and a hello lead to the handshake.
  lemma OpenShakes(w: World, hello: Payload, session: string, n: int, last: Option<Payload>, rest: seq<Turn>)
    requires Greeting(hello) && WfWorld(w) && !w.done
    requires w.turns == [Goes([], Tick)] + ([Goes([Control(hello)], Tick)] + rest)
    ensures var l := Line(w.(turns := rest, link := FRESH_LINK, dials := w.dials + 1), false, FRESH_HISTORY);
            && Good(l)
            && Ticker(Dial(Advance(w))) == Some(hello.data.heartbeatMillis.content) && Dial(Advance(w)).dials == w.dials + 1
            && Open(w, session, n, last) ==
                 ShakeHands(l, session, n, FirstAttempt(session != "", last).(dialed := true, hello := Some(hello)))
  {
    var afterDial := [Goes([Control(hello)], Tick)] + rest;
    QuietTurn(w, afterDial);
    DialedOk(w);
    HelloTurn(Dial(w.(turns := afterDial)), hello, rest);
    ReadOk(Dial(w.(turns := afterDial)));
  }

  lemma OpenTurns(w: World, hello: Payload, session: string, n: nat, last: Option<Payload>, rest: seq<Turn>)
    requires Greeting(hello) && WfWorld(w) && !w.done && w.turns == ResumeTurns(hello) + rest
    requires session != "" && session in w.logs && n < |w.logs[session]|
    ensures var f := FrameAt(w.logs[session], n);
            && Ticker(Dial(Advance(w))) == Some(hello.data.heartbeatMillis.content) && Dial(Advance(w)).dials == w.dials + 1
            && Open(w, session, n, last) ==
                 Opened(Line(w.(turns := rest, link := ReadUpTo(session, n + 1), dials := w.dials + 1),
                             false, FRESH_HISTORY),
                        session, Some(f), ResumingAttempt(hello, session, n, last, f))
  {
    var afterHello := [Goes([], Tick)] + (REPLAY + rest);
    assert w.turns == [Goes([], Tick)] + ([Goes([Control(hello)], Tick)] + afterHello);
    OpenShakes(w, hello, session, n, last, afterHello);
    ResumedTurns(Line(w.(turns := afterHello, link := FRESH_LINK, dials := w.dials + 1), false, FRESH_HISTORY),
                 session, n, FirstAttempt(true, last).(dialed := true, hello := Some(hello)), rest);
  }

  // ---------- Listening ----------

  // The script of a caller's context that is never done.
  function Under(c: Client, turns: seq<Turn>): Client {
    Entered(c, Context(turns, false))
  }

  // The first entry from `n` on that a caller is to be shown.
  ghost predicate FirstShown(log: seq<Entry>, n: int, j: nat) {
    && 0 <= n <= j < |log| && log[j].name != RESUMED
    && forall i :: n <= i < j ==> log[i].name == RESUMED
  }

  // A session is held, and entry `j` of its log is the next to be shown.
  ghost predicate Awaits(c: Client, j: nat) {
    Clients.Inv(c) && c.session != "" && FirstShown(c.line.world.logs[c.session], c.number, j)
  }

  // Listen returns entry `j`, and the client goes on with the same session after it.
  ghost predicate Returns(c: Client, j: nat)
    requires Awaits(c, j)
  {
    var (d, msg) := Listen(c);
    msg == Some(FrameAt(c.line.world.logs[c.session], j)) && d.session == c.session && d.number == j + 1
  }

  lemma ListenOpen(c: Client)
    requires Clients.Inv(c) && c.conn.Some? && !c.line.world.done
    ensures Clients.Inv(TakeEvent(c).0)
    ensures var (e, event) := TakeEvent(c);
            Listen(c) == if event.Some? && event.value.name != RESUMED then (e, event) else Listen(e)
  {
    TakeEventInv(c);
  }

  lemma ListenReconnects(c: Client)
    requires Clients.Inv(c) && c.conn.None? && !c.line.world.done
    requires Connect(c).conn.Some? && !Connect(c).line.world.done
    ensures Clients.Inv(Connect(c)) && Listen(c) == Listen(Connect(c))
  {
    ConnectInv(c);
  }

  // Consuming an entry after READY counts it.
  lemma ConsumesEntry(c: Client, n: nat)
    requires Knows(c) && c.session != "" && n == c.number && n < |c.line.world.logs[c.session]|
    ensures Consume(c, FrameAt(c.line.world.logs[c.session], n)).session == c.session
    ensures Consume(c, FrameAt(c.line.world.logs[c.session], n)).number == n + 1
  {
    assert WfLog(c.session, c.line.world.logs[c.session]);
  }

  // An open connection on which everything sent was read.
  ghost predicate CaughtUp(c: Client) {
    && Clients.Inv(c) && c.conn.Some? && c.session != ""
    && c.line.world.link == ReadUpTo(c.session, c.number + if c.buffered.Some? then 1 else 0)
  }

  // The client with the next entry read and consumed.
  ghost function Taken(c: Client): Client
    requires Clients.Inv(c) && c.session != "" && c.number < |c.line.world.logs[c.session]|
  {
    var w := c.line.world;
    Consume(c.(buffered := None, line := c.line.(world := w.(link := ReadUpTo(c.session, c.number + 1)))),
            FrameAt(w.logs[c.session], c.number))
  }

  function TakingTurns(c: Client): seq<Turn> {
    if c.buffered.Some? then [] else READ
  }

  lemma TakesEntry(c: Client, rest: seq<Turn>)
    requires CaughtUp(c) && c.number < |c.line.world.logs[c.session]|
    ensures TakeEvent(Under(c, TakingTurns(c) + rest))
            == (Under(Taken(c), rest), Some(FrameAt(c.line.world.logs[c.session], c.number)))
  {
    var e := Under(c, TakingTurns(c) + rest);
    if c.buffered.Some? {
      assert TakingTurns(c) + rest == rest;
    } else {
      ReadTurns(e.line, c.session, c.number, rest);
    }
  }

  lemma TakenOk(c: Client)
    requires CaughtUp(c) && c.number < |c.line.world.logs[c.session]|
    ensures var d := Taken(c);
            && CaughtUp(d) && d.buffered.None? && d.session == c.session && d.number == c.number + 1
            && d.line.world.logs == c.line.world.logs && d.attempts == c.attempts
  {
    ConsumesEntry(c, c.number);
    var e := Under(c, TakingTurns(c) + []);
    EnteredOk(c, Context(TakingTurns(c) + [], false));
    TakesEntry(c, []);
    TakeEventInv(e);
    EnteredOk(TakeEvent(e).0, Context(c.line.world.turns, c.line.world.done));
    assert Entered(Under(Taken(c), []), Context(c.line.world.turns, c.line.world.done)) == Taken(c);
  }

  ghost predicate Lasting(turns: seq<Turn>) {
    forall t :: t in turns ==> !t.cancels
  }

  lemma LastingAppend(first: seq<Turn>, second: seq<Turn>)
    requires Lasting(first) && Lasting(second)
    ensures Lasting(first + second)
  {
  }

  lemma ReadingLasts()
    ensures Lasting(READ) && Lasting(BREAK)
  {
  }

  lemma ResumingLasts(hello: Payload)
    ensures Lasting(ResumeTurns(hello))
  {
  }

  // Once caught up, reading on reaches the entry.
  lemma {:induction false} Delivers(c: Client, j: nat) returns (turns: seq<Turn>)
    requires CaughtUp(c) && Awaits(c, j)
    ensures Awaits(Under(c, turns), j) && Returns(Under(c, turns), j) && Lasting(turns)
    ensures Listen(Under(c, turns)).0.attempts == c.attempts
    decreases j - c.number
  {
    var rest := [];
    var d := Taken(c);
    TakenOk(c);
    if c.number != j {
      rest := Delivers(d, j);
    }
    turns := TakingTurns(c) + rest;
    ReadingLasts();
    LastingAppend(TakingTurns(c), rest);
    EnteredOk(c, Context(turns, false));
    TakesEntry(c, rest);
    ListenOpen(Under(c, turns));
  }

  // A connection that fails is given up, and the session kept.
  lemma BreaksOff(c: Client, rest: seq<Turn>)
    requires Clients.Inv(c) && c.conn.Some? && c.buffered.None?
    ensures TakeEvent(Under(c, BREAK + rest)) == (Under(c.(conn := None, heartbeat := None), rest), None)
  {
    var e := Under(c, BREAK + rest);
    assert e.line.world.turns[3..] == [Goes([], Tick)] + rest;
    ReadBreaks(e.line);
    QuietTurn(e.line.world.(turns := [Goes([], Tick)] + rest), rest);
  }

  // One more attempt to connect was made, and resumed the session.
  predicate ResumedOnce(c: Client, d: Client) {
    |d.attempts| == |c.attempts| + 1 && d.attempts[|c.attempts|].success == Some(true)
  }

  // The client after an attempt that resumes.
  ghost function Reopened(c: Client, hello: Payload): Client
    requires Greeting(hello) && Clients.Inv(c) && c.session != "" && c.number < |c.line.world.logs[c.session]|
  {
    var w, f := c.line.world, FrameAt(c.line.world.logs[c.session], c.number);
    Client(Some(w.dials + 1), Some(hello.data.heartbeatMillis.content),
           Line(w.(link := ReadUpTo(c.session, c.number + 1), dials := w.dials + 1), false, FRESH_HISTORY),
           Some(f), c.session, c.number, c.seen,
           c.attempts + [ResumingAttempt(hello, c.session, c.number, c.seen.last, f)])
  }

  lemma Reconnects(c: Client, hello: Payload, rest: seq<Turn>)
    requires Greeting(hello) && Clients.Inv(c) && c.conn.None?
    requires c.session != "" && c.number < |c.line.world.logs[c.session]|
    ensures var e := Under(c, ResumeTurns(hello) + rest);
            Clients.Inv(e) && Connect(e) == Under(Reopened(c, hello), rest)
  {
    EnteredOk(c, Context(ResumeTurns(hello) + rest, false));
    OpenTurns(Under(c, ResumeTurns(hello) + rest).line.world, hello, c.session, c.number, c.seen.last, rest);
  }

  lemma ReopenedOk(c: Client, hello: Payload)
    requires Greeting(hello) && Clients.Inv(c) && c.conn.None?
    requires c.session != "" && c.number < |c.line.world.logs[c.session]|
    ensures CaughtUp(Reopened(c, hello))
  {
    var d := Under(Reopened(c, hello), []);
    Reconnects(c, hello, []);
    ConnectInv(Under(c, ResumeTurns(hello) + []));
    EnteredOk(d, Context(c.line.world.turns, c.line.world.done));
    assert Entered(d, Context(c.line.world.turns, c.line.world.done)) == Reopened(c, hello);
  }

  lemma ListenResumes(c: Client, hello: Payload, rest: seq<Turn>)
    requires Greeting(hello) && Clients.Inv(c) && c.conn.None?
    requires c.session != "" && c.number < |c.line.world.logs[c.session]|
    ensures Clients.Inv(Under(c, ResumeTurns(hello) + rest)) && Clients.Inv(Under(Reopened(c, hello), rest))
    ensures Listen(Under(c, ResumeTurns(hello) + rest)) == Listen(Under(Reopened(c, hello), rest))
  {
    Reconnects(c, hello, rest);
    ListenReconnects(Under(c, ResumeTurns(hello) + rest));
  }

  lemma ResumesFrom(c: Client, j: nat, hello: Payload) returns (turns: seq<Turn>)
    requires Greeting(hello) && Awaits(c, j) && c.conn.None?
    ensures Awaits(Under(c, turns), j) && Returns(Under(c, turns), j) && Lasting(turns)
    ensures ResumedOnce(c, Listen(Under(c, turns)).0)
  {
    ReopenedOk(c, hello);
    var rest := Delivers(Reopened(c, hello), j);
    turns := ResumeTurns(hello) + rest;
    ResumingLasts(hello);
    LastingAppend(ResumeTurns(hello), rest);
    ListenResumes(c, hello, rest);
  }

  lemma BreaksAndResumes(c: Client, j: nat, hello: Payload) returns (turns: seq<Turn>)
    requires Greeting(hello) && Awaits(c, j) && c.conn.Some? && c.buffered.None?
    ensures Awaits(Under(c, turns), j) && Returns(Under(c, turns), j) && Lasting(turns)
    ensures ResumedOnce(c, Listen(Under(c, turns)).0)
  {
    var broken := c.(conn := None, heartbeat := None);
    var rest := ResumesFrom(broken, j, hello);
    turns := BREAK + rest;
    ReadingLasts();
    LastingAppend(BREAK, rest);
    EnteredOk(c, Context(turns, false));
    BreaksOff(c, rest);
    ListenOpen(Under(c, turns));
  }

  // The buffered event is the next entry.
  lemma TakesBuffered(c: Client, j: nat, turns: seq<Turn>)
    requires Awaits(c, j) && c.conn.Some? && c.buffered.Some?
    ensures c.buffered == Some(FrameAt(c.line.world.logs[c.session], c.number))
    ensures var d := Consume(c.(buffered := None), c.buffered.value);
            && TakeEvent(Under(c, turns)) == (Under(d, turns), c.buffered)
            && Clients.Inv(Under(c, turns)) && Clients.Inv(d)
            && d.session == c.session && d.number == c.number + 1
  {
    EnteredOk(c, Context(turns, false));
    ConsumesEntry(c.(buffered := None), c.number);
    TakeEventInv(c);
  }

  // From any state of the client in which a session is held and an entry of its log is still to be
  // shown, some course of events in a context that lasts makes Listen return it and go on after
  // it: by way of a new connection, with any hello, that resumes the session, unless an event is buffered already
  // and is the one to be shown.
  lemma CanResume(c: Client, j: nat, hello: Payload) returns (ctx: Context)
    requires Greeting(hello) && Awaits(c, j)
    ensures !ctx.done && Lasting(ctx.turns)
    ensures Awaits(Entered(c, ctx), j) && Returns(Entered(c, ctx), j)
    ensures var d := Listen(Entered(c, ctx)).0;
            if c.conn.Some? && c.buffered.Some? && j == c.number then d.attempts == c.attempts else ResumedOnce(c, d)
  {
    var turns := [];
    if c.conn.None? {
      turns := ResumesFrom(c, j, hello);
    } else if c.buffered.None? {
      turns := BreaksAndResumes(c, j, hello);
    } else {
      TakesBuffered(c, j, []);
      if j != c.number {
        turns := BreaksAndResumes(Consume(c.(buffered := None), c.buffered.value), j, hello);
      }
      TakesBuffered(c, j, turns);
      ListenOpen(Under(c, turns));
    }
    ctx := Context(turns, false);
  }
}
