// The resumable gateway client: the client object with its fields and methods, each of which does
// to the fields and the world what its counterpart in Clients says.
module GatewayClient {
  import opened Protocol
  import opened Discord
  import opened NextProtocol
  import opened Scheduling
  import opened Clients

  class Gateway {
    var conn: Option<nat>          // which dial the open connection came from
    var heartbeat: Option<int>     // the running ticker's interval
    var heartbeatInterval: int
    var pendingAck: bool
    var bufferedEvent: Option<Payload>
    var sessionID: string
    var sequenceNumber: int

    // Not the client's own state: the world it talks to, and histories of the open connection.
    var world: World
    var history: History

    ghost var seen: Seen
    ghost var attempts: seq<Attempt>

    ghost function Connection(): Line
      reads this
    {
      Line(world, pendingAck, history)
    }

    ghost function Value(): Client
      reads this
    {
      Client(conn, heartbeat, Connection(), bufferedEvent, sessionID, sequenceNumber, seen, attempts)
    }

    ghost predicate Valid()
      reads this
    {
      Clients.Inv(Value()) && (heartbeat.Some? ==> heartbeat == Some(heartbeatInterval) && heartbeatInterval > 0)
    }

    // The outcome of an attempt to connect, as far as it shows in the fields.
    ghost function Outcome(a: Attempt): Opened
      reads this
    {
      Opened(Connection(), sessionID, bufferedEvent, a)
    }

    constructor (logs: Logs)
      requires WfLogs(logs)
      ensures Valid() && Value() == Fresh(logs)
    {
      conn, heartbeat, heartbeatInterval := None, None, 0;
      pendingAck, bufferedEvent := false, None;
      sessionID, sequenceNumber := "", 0;
      world := World(logs, FRESH_LINK, 0, false, []);
      history := FRESH_HISTORY;
      seen, attempts := Seen([], None), [];
    }

    // At any moment between calls, on an open connection: `pendingAck` holds exactly when a heartbeat
    // was sent with no ACK handled since, every tick-driven heartbeat came after an answer to all
    // earlier ones, and every ACK read has been handled.
    lemma HeartbeatDiscipline()
      requires Valid() && conn.Some?
      ensures heartbeat.Some?
      ensures pendingAck <==> Outstanding(history.beats)
      ensures Disciplined(history.beats)
      ensures history.acksRead == multiset(history.beats)[AckHandled]
    {
      TallyMeans(history.beats);
    }

    // Brings the caller's context into the world.
    method Enter(ctx: Context)
      modifies this`world
      ensures Value() == Entered(old(Value()), ctx)
    {
      world := world.(turns := ctx.turns, done := ctx.done);
    }

    // ---------- Network operations ----------

    method DialLink() returns (ok: bool)
      modifies this`world
      ensures ok <==> Lucky(old(world))
      ensures world == if ok then Dial(Advance(old(world))) else Advance(old(world))
    {
      ok := Lucky(world);
      world := Advance(world);
      if ok {
        world := Dial(world);
      }
    }

    method Read() returns (f: Option<Payload>)
      modifies this`world
      ensures (world, f) == ReadFrom(old(world))
    {
      var ok := Lucky(world);
      world := Advance(world);
      if !ok || world.link.inbox == [] {
        return None;
      }
      f := Some(world.link.inbox[0]);
      world := Take(world);
    }

    // Writes a handshake frame. Even a write that fails may have reached the server.
    method Send(r: Request) returns (ok: bool)
      modifies this`world
      ensures world == SendTo(old(world), r)
      ensures ok <==> Lucky(old(world))
    {
      if world.done {
        return false;
      }
      ok := Lucky(world);
      world := Ask(Advance(world), r);
    }

    // Waits on a timer and on the context; true when the timer was chosen.
    method Sleep() returns (fired: bool)
      modifies this`world
      ensures world == Advance(old(world))
      ensures fired <==> Wakes(old(world))
    {
      var chosen := world.turns != [] && world.turns[0].ok;
      world := Advance(world);
      fired := !world.done || chosen;
    }

    // ---------- next ----------

    // Runs the two goroutines under the script's scheduling until both have ended.
    method Next() returns (r: NextProtocol.Result, ghost read: seq<Payload>)
      requires Good(Connection()) && conn.Some? && heartbeat.Some?
      modifies this`world, this`pendingAck, this`history
      ensures var (s, w) := NextFrom(old(Connection()));
              Finished(s) && r == NextProtocol.Outcome(s) && read == s.frames && Connection() == LineAfter(s, w)
      ensures r.Message? ==> r.msg.Some? && IsFirstEvent(read, r.msg.value)
    {
      ghost var before := Connection();
      StartInv(pendingAck, history.beats, history.acksRead);
      var s := Start(pendingAck, history.beats, history.acksRead);
      while !Finished(s)
        invariant NextProtocol.Inv(s) && WfWorld(world)
        invariant Drive(s, world) == NextFrom(before)
        decreases |world.turns|, if s.cancelled then 0 else 1, Rank(s)
      {
        InterleaveSafe(s, world);
        s, world := Interleave(s, world).0, Interleave(s, world).1;
      }
      pendingAck, history := s.pendingAck, History(s.beats, s.acksRead);
      read := s.frames;
      r := NextProtocol.Outcome(s);
      NextOk(before);
    }

    // ---------- Connecting ----------

    // Reads the hello frame and starts the heartbeat ticker.
    method Hello() returns (hello: Option<Payload>)
      requires WfWorld(world) && conn.Some? && heartbeat.None?
      modifies this`world, this`heartbeat, this`heartbeatInterval
      ensures (world, hello) == ReadFrom(old(world))
      ensures if hello.Some? && Greets(hello.value)
              then
                && heartbeat == HelloMillis(hello.value.data)
                && heartbeat == Some(heartbeatInterval) && heartbeatInterval > 0
              else heartbeat.None?
    {
      ReadOk(world);
      hello := Read();
      if hello.None? || hello.value.op != HELLO {
        return;
      }
      var millis := HelloMillis(hello.value.data);
      if millis.None? {
        return;
      }
      heartbeatInterval := millis.value;
      heartbeat := Some(heartbeatInterval);
    }

    // Writes a handshake frame and waits for the answer.
    method Converse(r: Request) returns (reply: Option<Payload>)
      requires Good(Connection()) && conn.Some? && heartbeat.Some?
      modifies this`world, this`pendingAck, this`history
      ensures (Connection(), reply) == Exchange(old(Connection()), r)
    {
      SendOk(world, r);
      var ok := Send(r);
      if !ok {
        return None;
      }
      var result, _ := Next();
      return if result.Message? then result.msg else None;
    }

    // Asks for a new session and waits for its READY event.
    method Identify(ghost a: Attempt) returns (ok: bool, ghost b: Attempt)
      requires Good(Connection()) && conn.Some? && heartbeat.Some? && bufferedEvent.None? && a.success.None?
      modifies this`world, this`pendingAck, this`history, this`bufferedEvent
      ensures Outcome(b) == Identified(old(Connection()), sessionID, a)
      ensures ok <==> bufferedEvent.Some?
    {
      var msg := Converse(IdentifyRequest);
      b := a.(identifySent := Some(sessionID), identifyReply := msg);
      if msg.None? || msg.value.op != DISPATCH || msg.value.name != READY {
        return false, b;
      }
      bufferedEvent := msg;
      return true, b.(success := Some(false));
    }

    // Asks to resume the session held. A refusal gives it up, and the attempt may go on after a pause.
    method Resume(ghost a: Attempt) returns (refused: bool, ghost b: Attempt)
      requires Good(Connection()) && conn.Some? && heartbeat.Some? && bufferedEvent.None?
      modifies this`world, this`pendingAck, this`history, this`bufferedEvent, this`sessionID
      ensures (Outcome(b), refused) == Resumed(old(Connection()), old(sessionID), sequenceNumber, a)
    {
      b := a.(resumeSent := Some(ResumeFrame(sessionID, sequenceNumber)));
      var msg := Converse(ResumeRequest(sessionID, sequenceNumber));
      b := b.(resumeReply := msg);
      if msg.None? {
        return false, b;
      }
      if msg.value.op == DISPATCH {
        bufferedEvent := msg;
        return false, b.(success := Some(true));
      } else if msg.value.op == INVALID_SESSION {
        sessionID := "";
        refused := Sleep();
      } else {
        return false, b;
      }
    }

    // Resumes the session if one is held, and otherwise, or if the server refuses, identifies.
    method Handshake(ghost a: Attempt) returns (ok: bool, ghost b: Attempt)
      requires Good(Connection()) && conn.Some? && heartbeat.Some? && bufferedEvent.None? && a.success.None?
      modifies this`world, this`pendingAck, this`history, this`bufferedEvent, this`sessionID
      ensures Outcome(b) == ShakeHands(old(Connection()), old(sessionID), sequenceNumber, a)
      ensures ok <==> bufferedEvent.Some?
    {
      b := a;
      if sessionID != "" {
        RefusedGood(Connection(), sessionID, sequenceNumber, a);
        var refused;
        refused, b := Resume(a);
        if !refused {
          return bufferedEvent.Some?, b;
        }
      }
      ok, b := Identify(b);
    }

    // Reads the hello and shakes hands on a connection just dialed; a failure stops the ticker again.
    method Greet(ghost a: Attempt) returns (ok: bool, ghost b: Attempt)
      requires WfWorld(world) && conn.Some? && heartbeat.None? && bufferedEvent.None? && a.success.None?
      requires !pendingAck && history == FRESH_HISTORY
      modifies this`world, this`heartbeat, this`heartbeatInterval, this`pendingAck, this`history,
               this`bufferedEvent, this`sessionID
      ensures Outcome(b) == Clients.Greet(old(world), old(sessionID), sequenceNumber, a)
      ensures ok <==> bufferedEvent.Some?
      ensures heartbeat == if ok then Ticker(old(world)) else None
      ensures heartbeat.Some? ==> heartbeat == Some(heartbeatInterval) && heartbeatInterval > 0
    {
      ReadOk(world);
      var hello := Hello();
      b := a.(dialed := true, hello := hello);
      ok := heartbeat.Some?;
      if ok {
        ok, b := Handshake(b);
        if !ok {
          heartbeat := None;
        }
      }
    }

    // Dials, reads the hello and shakes hands, undoing on failure what had been set up.
    method Open() returns (ok: bool, ghost a: Attempt)
      requires WfWorld(world) && conn.None? && heartbeat.None? && bufferedEvent.None?
      requires !pendingAck && history == FRESH_HISTORY
      modifies this`world, this`conn, this`heartbeat, this`heartbeatInterval, this`pendingAck, this`history,
               this`bufferedEvent, this`sessionID
      ensures Outcome(a) == Clients.Open(old(world), old(sessionID), sequenceNumber, seen.last)
      ensures ok <==> bufferedEvent.Some?
      ensures heartbeat == if ok then Ticker(Dial(Advance(old(world)))) else None
      ensures conn == if ok then Some(Dial(Advance(old(world))).dials) else None
      ensures heartbeat.Some? ==> heartbeat == Some(heartbeatInterval) && heartbeatInterval > 0
    {
      DialedOk(world);
      a := FirstAttempt(sessionID != "", seen.last);
      ok := DialLink();
      if !ok {
        return;
      }
      conn := Some(world.dials);
      ok, a := Greet(a);
      if !ok {
        conn := None;
      }
    }

    // Forgets what belonged to the previous connection.
    method Reset()
      modifies this`pendingAck, this`bufferedEvent, this`history
      ensures !pendingAck && bufferedEvent.None? && history == FRESH_HISTORY
    {
      pendingAck := false;
      bufferedEvent := None;
      history := FRESH_HISTORY;
    }

    // One attempt to connect. Every error exit leaves no connection and no ticker.
    method TryConnect() returns (ok: bool)
      requires WfWorld(world) && conn.None? && heartbeat.None?
      modifies this
      ensures Value() == Clients.Connect(old(Value()))
      ensures ok <==> conn.Some?
      ensures heartbeat.Some? ==> heartbeat == Some(heartbeatInterval) && heartbeatInterval > 0
    {
      ghost var before := Value();
      Reset();
      ghost var a;
      ok, a := Open();
      attempts := attempts + [a];
      assert Value() == Clients.Connect(before);
    }

    // Makes sure there is a connection, if need be by one attempt to get one.
    method Connect() returns (ok: bool)
      requires Valid()
      modifies this
      ensures Valid() && Value() == Clients.Connect(old(Value()))
      ensures ok <==> conn.Some?
    {
      ConnectInv(Value());
      if conn.Some? {
        return true;
      }
      ok := TryConnect();
    }

    // Waits five seconds and makes another attempt, unless the context is done first.
    method TryAgain() returns (fired: bool, ok: bool)
      requires Valid() && conn.None? && Clients.Inv(Slept(Value()))
      modifies this
      ensures Valid() && (fired <==> Wakes(old(world)))
      ensures Value() == if fired then Clients.Connect(Slept(old(Value()))) else Slept(old(Value()))
      ensures ok <==> conn.Some?
    {
      fired := Sleep();
      if !fired {
        return fired, false;
      }
      ok := Connect();
    }

    // Retries every five seconds until connected or until the context is done.
    method EnsureConn() returns (ok: bool)
      requires Valid()
      modifies this
      ensures Valid() && Value() == Clients.EnsureConn(old(Value()))
      ensures ok <==> conn.Some?
    {
      ghost var before := Value();
      ok := Connect();
      while !ok
        invariant Valid() && (ok <==> conn.Some?)
        invariant Retry(Value()) == Clients.EnsureConn(before)
        decreases |world.turns|, !ok
      {
        SleptInv(Value());
        var fired;
        ConnectInv(Slept(Value()));
        fired, ok := TryAgain();
        if !fired {
          return false;
        }
      }
    }

    method WaitForReady(ctx: Context) returns (ok: bool)
      requires Valid()
      modifies this
      ensures Valid() && (Value(), []) == After(old(Value()), WaitCall(ctx))
      ensures ok ==> conn.Some?
      ensures !ok ==> conn.None? && world.done
    {
      EnteredOk(Value(), ctx);
      EnsureConnOk(Entered(Value(), ctx));
      Enter(ctx);
      ok := EnsureConn();
    }

    // ---------- Closing ----------

    // Returns whether the close frame was written and the socket closed without error.
    method CloseWithCode() returns (ok: bool)
      modifies this`conn, this`heartbeat, this`world
      ensures Value() == Closed(old(Value()))
      ensures ok <==> old(conn).None? || (old(world).turns != [] && old(world).turns[0].ok && old(world).turns[0].alsoOk)
    {
      heartbeat := None;
      if conn.None? {
        return true;
      }
      var wrote := world.turns != [] && world.turns[0].ok;
      var closed := world.turns != [] && world.turns[0].alsoOk;
      world := Advance(world);
      conn := None;
      return wrote && closed;
    }

    method Close(ctx: Context) returns (ok: bool)
      requires Valid()
      modifies this`conn, this`heartbeat, this`world
      ensures Valid() && (Value(), []) == After(old(Value()), CloseCall(ctx))
      ensures conn.None? && heartbeat.None?
      ensures ok <==> old(conn).None? || ClosesWell(ctx.turns)
    {
      EnteredOk(Value(), ctx);
      ClosedOk(Entered(Value(), ctx));
      Enter(ctx);
      ok := CloseWithCode();
    }

    // ---------- Listening ----------

    // Records how far the session has been consumed.
    method UpdateSession(msg: Payload)
      modifies this`sessionID, this`sequenceNumber, this`seen
      ensures (sessionID, sequenceNumber) == Recorded(old(sessionID), old(sequenceNumber), msg)
      ensures msg.op == DISPATCH ==> Holds(Value(), msg)
      ensures seen == if msg.op == DISPATCH then Showing(old(seen), msg) else old(seen)
    {
      if msg.op != DISPATCH {
        return;
      }
      seen := Showing(seen, msg);
      if msg.name == READY {
        var session := ReadySession(msg.data);
        if session.None? {
          sessionID := "";
          return;
        }
        sessionID := session.value;
      }
      sequenceNumber := msg.number;
    }

    // Hangs up after what is not a dispatch; only one answer gives up the session.
    method Hangup(reply: Option<Payload>)
      modifies this`conn, this`heartbeat, this`world, this`sessionID
      ensures Value() == Closed(old(Value()).(session := if Invalidates(reply) then "" else old(sessionID)))
    {
      if reply.Some? && reply.value.op == INVALID_SESSION && reply.value.data != True {
        sessionID := "";
      }
      var _ := CloseWithCode();
    }

    // Reads on from an open connection with nothing buffered: a dispatch is recorded, and anything
    // else closes the connection.
    method NextEvent() returns (event: Option<Payload>)
      requires Good(Connection()) && conn.Some? && heartbeat.Some? && bufferedEvent.None?
      modifies this`world, this`pendingAck, this`history, this`conn, this`heartbeat,
               this`sessionID, this`sequenceNumber, this`seen
      ensures (Value(), event) == Clients.NextEvent(old(Value()))
      ensures heartbeat.Some? ==> heartbeat == old(heartbeat)
    {
      var reply, _ := Next();
      if reply.Message? && reply.msg.value.op == DISPATCH {
        UpdateSession(reply.msg.value);
        return reply.msg;
      }
      Hangup(if reply.Message? then reply.msg else None);
      return None;
    }

    // The event read while connecting, if it is still there, and otherwise the next one.
    method TakeEvent() returns (event: Option<Payload>)
      requires Valid() && conn.Some?
      modifies this`world, this`pendingAck, this`history, this`conn, this`heartbeat,
               this`sessionID, this`sequenceNumber, this`seen, this`bufferedEvent
      ensures Valid() && (Value(), event) == Clients.TakeEvent(old(Value()))
    {
      TakeEventInv(Value());
      if bufferedEvent.Some? {
        event := bufferedEvent;
        bufferedEvent := None;
        UpdateSession(event.value);
      } else {
        event := NextEvent();
      }
    }

    // Returns the next event, reconnecting as needed; fails only when the context is done.
    method Listen(ctx: Context) returns (msg: Option<Payload>)
      requires Valid()
      modifies this
      ensures Valid()
      ensures (Value(), msg) == Clients.Listen(Entered(old(Value()), ctx))
      ensures msg.None? ==> world.done
      ensures msg.Some? ==> Presentable(msg.value)
    {
      ghost var start := Entered(Value(), ctx);
      EnteredOk(Value(), ctx);
      Enter(ctx);
      while true
        invariant Valid() && Clients.Listen(Value()) == Clients.Listen(start)
        decreases |world.turns|, if world.done then 0 else 1, if bufferedEvent.Some? then 1 else 0
      {
        if world.done {
          return None;
        }
        EnsureConnInv(Value());
        var ok := EnsureConn();
        if !ok {
          return None;
        }
        TakeEventInv(Value());
        var event := TakeEvent();
        if event.Some? && event.value.name != RESUMED {
          return event;
        }
      }
    }
  }

  // ---------- Whole runs ----------

  // Any sequence of calls on a new gateway does what the client's functions say, so that what they
  // return is delivered exactly once.
  method Run(logs: Logs, calls: seq<Call>) returns (g: Gateway, returned: seq<Payload>)
    requires WfLogs(logs)
    ensures fresh(g) && g.Valid() && (g.Value(), returned) == Calls(Fresh(logs), calls, [])
    ensures g.sessionID != "" ==>
              && g.sessionID in g.world.logs
              && 1 <= g.sequenceNumber <= |g.world.logs[g.sessionID]|
              && EndsWith(returned, Shown(g.world.logs[g.sessionID], g.sequenceNumber))
    ensures forall p :: p in returned ==> Presentable(p)
    ensures Records(g.world.logs, g.attempts)
  {
    ExactlyOnce(logs, calls);
    g := new Gateway(logs);
    returned := [];
    for i := 0 to |calls|
      invariant g.Valid()
      invariant Calls(g.Value(), calls[i..], returned) == Calls(Fresh(logs), calls, [])
    {
      assert calls[i..][0] == calls[i] && calls[i..][1..] == calls[i + 1..];
      AfterOk(g.Value(), calls[i]);
      match calls[i]
      case ListenCall(ctx) =>
        var msg := g.Listen(ctx);
        returned := returned + if msg.Some? then [msg.value] else [];
      case WaitCall(ctx) =>
        var _ := g.WaitForReady(ctx);
        assert returned + [] == returned;
      case CloseCall(ctx) =>
        var _ := g.Close(ctx);
        assert returned + [] == returned;
    }
  }
}
