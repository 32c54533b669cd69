// The gateway client as a function of its state and the script: what each operation makes of them,
// what every operation keeps, exactly-once delivery over whole runs, and that a session can always
// be taken up again.
module Clients {
  import opened Protocol
  import opened Discord
  import opened NextProtocol
  import opened Scheduling

  // ---------- What a client knows about its session ----------

  function NotResumed(frames: seq<Payload>): seq<Payload> {
    if frames == [] then []
    else NotResumed(frames[..|frames| - 1])
         + if frames[|frames| - 1].name == RESUMED then [] else [frames[|frames| - 1]]
  }

  // The payloads a caller should have seen once the first n log entries were consumed.
  function Shown(log: seq<Entry>, n: nat): seq<Payload>
    requires n <= |log|
  {
    NotResumed(Frames(log, 0, n))
  }

  // `since` is what Listen returned from the last READY on; `last` the last dispatch consumed.
  datatype Seen = Seen(since: seq<Payload>, last: Option<Payload>)

  // While a session is held, `since` is the session's log up to `number` without RESUMED, and
  // `last` is the entry that carried `number`.
  ghost predicate Progress(logs: Logs, session: string, number: int, seen: Seen) {
    session != "" ==>
      && session in logs
      && 1 <= number <= |logs[session]|
      && seen.since == Shown(logs[session], number)
      && seen.last == Some(FrameAt(logs[session], number - 1))
  }

  lemma ProgressExtends(logs: Logs, later: Logs, session: string, number: int, seen: Seen)
    requires Progress(logs, session, number, seen) && Extends(logs, later)
    ensures Progress(later, session, number, seen)
  {
    if session != "" {
      FramesPrefix(logs[session], later[session], 0, number);
    }
  }

  lemma ShownNext(log: seq<Entry>, n: nat)
    requires n < |log|
    ensures Shown(log, n + 1) == Shown(log, n) + if log[n].name == RESUMED then [] else [FrameAt(log, n)]
  {
    assert Frames(log, 0, n + 1)[..n] == Frames(log, 0, n);
  }

  // The session id and sequence number after a payload has been recorded.
  function Recorded(session: string, number: int, p: Payload): (string, int) {
    if p.op != DISPATCH then (session, number)
    else if p.name != READY then (session, p.number)
    else match ReadySession(p.data)
      case None => ("", number)
      case Some(s) => (s, p.number)
  }

  function Showing(seen: Seen, p: Payload): Seen {
    Seen(if p.name == READY then [p] else if p.name == RESUMED then seen.since else seen.since + [p], Some(p))
  }

  // Recording the next entry of the attached session keeps the client's view exact: a READY
  // starts the view over, and a RESUMED advances it without showing anything.
  lemma RecordOk(w: World, session: string, number: int, seen: Seen, p: Payload)
    requires WfWorld(w) && Progress(w.logs, session, number, seen) && Current(w, p)
    requires session != "" ==> w.link.attached == Some(session) && w.link.taken == number + 1
    ensures var (s, n) := Recorded(session, number, p);
            && Progress(w.logs, s, n, Showing(seen, p))
            && (s != "" ==> w.link.attached == Some(s) && w.link.taken == n)
            && (p.name != READY ==> s == session)
  {
    var log := w.logs[w.link.attached.value];
    ShownNext(log, w.link.taken - 1);
    if p.name == READY {
      assert w.link.taken == 1;
      assert Shown(log, 0) == [];
    }
  }

  // An open link is attached to the session the client follows, and what the client will read
  // next, after any buffered event, is the entry after `number`.
  ghost predicate Attached(w: World, buffered: Option<Payload>, session: string, number: int) {
    && w.link.attached.Some? && w.link.attached.value in w.logs
    && w.link.taken <= |w.logs[w.link.attached.value]|
    && (buffered.Some? ==> Current(w, buffered.value))
    && (session != "" ==>
          && w.link.attached == Some(session)
          && w.link.taken == number + if buffered.Some? then 1 else 0)
  }

  // A dispatch that answers a Resume continues the session exactly where it was left.
  lemma ResumeAttaches(asked: Link, w: World, p: Payload)
    requires asked.attached.None? && asked.request.ResumeRequest?
    requires Current(w, p) && Follows(asked, w.link, 1)
    ensures Attached(w, Some(p), asked.request.session, asked.request.after)
  {
  }

  // Reading on, or recording what was read, keeps an attached link in step.
  lemma NextAttaches(w: World, v: World, p: Payload, session: string, number: int)
    requires WfWorld(w) && Attached(w, None, session, number) && Current(v, p) && Follows(w.link, v.link, 1)
    ensures session != "" ==> v.link.attached == Some(session) && v.link.taken == number + 1
  {
  }

  // ---------- Connection attempts ----------

  datatype ResumeFrame = ResumeFrame(session: string, after: int)

  // One pass through `connect`: the flag given to the attempt callback, the last dispatch consumed
  // before, whether the dial succeeded, the frames handed to the socket and the answers to them,
  // and the flag given to the success callback. `identifySent` holds the session id at that moment.
  datatype Attempt = Attempt(
    isResume: bool,
    consumed: Option<Payload>,
    dialed: bool,
    hello: Option<Payload>,
    resumeSent: Option<ResumeFrame>,
    resumeReply: Option<Payload>,
    identifySent: Option<string>,
    identifyReply: Option<Payload>,
    success: Option<bool>)

  function FirstAttempt(isResume: bool, consumed: Option<Payload>): Attempt {
    Attempt(isResume, consumed, false, None, None, None, None, None, None)
  }

  predicate Greets(p: Payload) {
    p.op == HELLO && HelloMillis(p.data).Some?
  }

  predicate IsReady(p: Payload) {
    p.op == DISPATCH && p.name == READY
  }

  // Resume carries the number of the last dispatch consumed; Identify is sent only without a
  // session; after a good hello exactly the right one is sent first, and Identify after Resume
  // only on a refusal; and a success is reported exactly for the right answer to the last.
  predicate Coherent(a: Attempt) {
    && (a.hello.Some? ==> a.dialed)
    && (a.resumeSent.Some? <==> a.isResume && a.hello.Some? && Greets(a.hello.value))
    && (a.resumeSent.Some? ==>
          && a.resumeSent.value.session != ""
          && a.consumed.Some? && a.resumeSent.value.after == a.consumed.value.number)
    && (a.hello.Some? && Greets(a.hello.value) && !a.isResume ==> a.identifySent.Some?)
    && (a.resumeReply.Some? ==> a.resumeSent.Some?)
    && (a.identifySent.Some? ==>
          && a.identifySent == Some("")
          && a.hello.Some? && Greets(a.hello.value)
          && (a.isResume ==> a.resumeReply.Some? && a.resumeReply.value.op == INVALID_SESSION))
    && (a.identifyReply.Some? ==> a.identifySent.Some?)
    && (a.success == Some(true) <==> a.resumeReply.Some? && a.resumeReply.value.op == DISPATCH)
    && (a.success == Some(false) <==> a.identifyReply.Some? && IsReady(a.identifyReply.value))
  }

  // A Resume frame names a session of the server and a number in its log, and the last dispatch
  // consumed before was the entry of that log with that number.
  ghost predicate Anchored(logs: Logs, a: Attempt) {
    a.resumeSent.Some? ==>
      var r := a.resumeSent.value;
      && r.session in logs
      && 1 <= r.after <= |logs[r.session]|
      && a.consumed == Some(FrameAt(logs[r.session], r.after - 1))
  }

  // Every attempt made so far was coherent, and resumed only from where the client had got to.
  ghost predicate Records(logs: Logs, attempts: seq<Attempt>) {
    forall a :: a in attempts ==> Coherent(a) && Anchored(logs, a)
  }

  lemma RecordsExtend(logs: Logs, later: Logs, attempts: seq<Attempt>)
    requires Records(logs, attempts) && Extends(logs, later)
    ensures Records(later, attempts)
  {
    forall a | a in attempts && a.resumeSent.Some?
      ensures Anchored(later, a)
    {
      var r := a.resumeSent.value;
      assert logs[r.session] <= later[r.session];
    }
  }

  // ---------- Network operations ----------

  // An Invalid Session that says the session cannot be resumed.
  predicate Invalidates(reply: Option<Payload>) {
    reply.Some? && reply.value.op == INVALID_SESSION && reply.value.data != True
  }

  // Whether the next operation succeeds, going by the script.
  predicate Lucky(w: World) {
    !w.done && w.turns != [] && w.turns[0].ok
  }

  // The close frame is written and the socket closed without error.
  predicate ClosesWell(turns: seq<Turn>) {
    turns != [] && turns[0].ok && turns[0].alsoOk
  }

  // A write fails at once when the context is done; even one that fails later may have got through.
  function SendTo(w: World, r: Request): World {
    if w.done then w else Ask(Advance(w), r)
  }

  function ReadFrom(w: World): (World, Option<Payload>) {
    var v := Advance(w);
    if Lucky(w) && v.link.inbox != [] then (Take(v), Some(v.link.inbox[0])) else (v, None)
  }

  // Waiting on a timer and on the context ends with the timer if the context lasts, or if the timer
  // is chosen when both are ready.
  predicate Wakes(w: World) {
    !Advance(w).done || (w.turns != [] && w.turns[0].ok)
  }

  // What any operation does to the world: logs only grow, and the script shrinks.
  ghost predicate Moves(w: World, v: World) {
    WfWorld(v) && Extends(w.logs, v.logs) && Later(w, v)
  }

  lemma MovesTrans(u: World, v: World, w: World)
    requires Moves(u, v) && Moves(v, w)
    ensures Moves(u, w)
  {
    ExtendsTrans(u.logs, v.logs, w.logs);
  }

  lemma SendOk(w: World, r: Request)
    requires WfWorld(w)
    ensures var v := SendTo(w, r);
            && Moves(w, v) && v.dials == w.dials
            && (!w.done ==> v.link.request == r && Spent(w, v))
            && (w.link.attached.None? && w.link.request == NoRequest ==> v.link.attached.None?)
  {
    AdvanceOk(w);
    assert WfLink(SendTo(w, r).logs, SendTo(w, r).link);
  }

  // A frame read from the link, before the client has asked for anything, attaches nothing.
  lemma ReadOk(w: World)
    requires WfWorld(w)
    ensures var (v, f) := ReadFrom(w);
            && Moves(w, v) && v.dials == w.dials && (f.Some? ==> HelloOk(f.value))
            && (w.link.attached.None? && w.link.request == NoRequest ==>
                  v.link.attached.None? && v.link.request == NoRequest)
  {
    AdvanceOk(w);
    if Advance(w).link.inbox != [] {
      TakeOk(Advance(w));
    }
  }

  // ---------- The handshake ----------

  // Writes a handshake frame and waits for the answer.
  function Exchange(l: Line, r: Request): (Line, Option<Payload>)
    requires Good(l)
  {
    SendOk(l.world, r);
    if !Lucky(l.world) then (l.(world := SendTo(l.world, r)), None)
    else
      var (s, w) := NextFrom(l.(world := SendTo(l.world, r)));
      (LineAfter(s, w), Reply(s))
  }

  // What came of an attempt: the connection, the session still held, the first event if it
  // succeeded, and its record.
  datatype Opened = Opened(line: Line, session: string, first: Option<Payload>, attempt: Attempt)

  // Asks for a new session and waits for its READY event.
  function Identified(l: Line, session: string, a: Attempt): Opened
    requires Good(l)
  {
    var (m, reply) := Exchange(l, IdentifyRequest);
    var ok := reply.Some? && IsReady(reply.value);
    Opened(m, session, if ok then reply else None,
           a.(identifySent := Some(session), identifyReply := reply, success := if ok then Some(false) else None))
  }

  // Asks to resume the session held. Being refused gives it up, and unless the context ends while
  // waiting a few seconds the attempt goes on; otherwise it ends here.
  function Resumed(l: Line, session: string, number: int, a: Attempt): (Opened, bool)
    requires Good(l)
  {
    var (m, reply) := Exchange(l, ResumeRequest(session, number));
    var b := a.(resumeSent := Some(ResumeFrame(session, number)), resumeReply := reply);
    if reply.Some? && reply.value.op == DISPATCH then (Opened(m, session, reply, b.(success := Some(true))), false)
    else if reply.Some? && reply.value.op == INVALID_SESSION then
      (Opened(m.(world := Advance(m.world)), "", None, b), Wakes(m.world))
    else (Opened(m, session, None, b), false)
  }

  lemma RefusedGood(l: Line, session: string, number: int, a: Attempt)
    requires Good(l)
    ensures var (o, refused) := Resumed(l, session, number, a); refused ==> Good(o.line)
  {
    ExchangeGood(l, ResumeRequest(session, number));
    var (m, reply) := Exchange(l, ResumeRequest(session, number));
    if reply.Some? {
      AdvanceOk(m.world);
    }
  }

  // Asks to resume if a session is held, and otherwise, or after a refusal, for a new session.
  function ShakeHands(l: Line, session: string, number: int, a: Attempt): Opened
    requires Good(l)
  {
    if session == "" then Identified(l, session, a)
    else
      RefusedGood(l, session, number, a);
      var (o, refused) := Resumed(l, session, number, a);
      if refused then Identified(o.line, o.session, o.attempt) else o
  }

  // Reads the hello and shakes hands on a connection just dialed.
  function Greet(w: World, session: string, number: int, a: Attempt): Opened
    requires WfWorld(w)
  {
    ReadOk(w);
    var (v, hello) := ReadFrom(w);
    var b, l := a.(dialed := true, hello := hello), Line(v, false, FRESH_HISTORY);
    if hello.None? || !Greets(hello.value) then Opened(l, session, None, b)
    else ShakeHands(l, session, number, b)
  }

  // The ticker that the hello read on a connection just dialed asks for.
  function Ticker(w: World): Option<int> {
    var hello := ReadFrom(w).1;
    if hello.Some? && Greets(hello.value) then HelloMillis(hello.value.data) else None
  }

  // One attempt to connect: dialing, hello and handshake.
  function Open(w: World, session: string, number: int, last: Option<Payload>): Opened
    requires WfWorld(w)
  {
    DialedOk(w);
    var a := FirstAttempt(session != "", last);
    if Lucky(w) then Greet(Dial(Advance(w)), session, number, a)
    else Opened(Line(Advance(w), false, FRESH_HISTORY), session, None, a)
  }

  lemma DialedOk(w: World)
    requires WfWorld(w)
    ensures WfWorld(Advance(w)) && WfWorld(Dial(Advance(w))) && Dial(Advance(w)).dials == w.dials + 1
  {
    AdvanceOk(w);
    assert WfLink(Advance(w).logs, FRESH_LINK);
  }

  // No request can be answered before it is made.
  ghost predicate Unasked(w: World) {
    w.link.attached.None? && w.link.request == NoRequest
  }

  // The answer to a handshake frame: a dispatch is the entry of the log that the link has just moved
  // past, and one that answers Resume is the entry after the number it carried.
  lemma ExchangeOk(l: Line, r: Request)
    requires Good(l)
    ensures var (m, reply) := Exchange(l, r);
            && Moves(l.world, m.world) && m.world.dials == l.world.dials
            && (reply.Some? ==> Good(m))
            && (reply.Some? && reply.value.op == DISPATCH ==> Current(m.world, reply.value))
            && (reply.Some? && reply.value.op == DISPATCH && Unasked(l.world) && r.ResumeRequest? ==>
                  Attached(m.world, reply, r.session, r.after))
  {
    SendOk(l.world, r);
    if Lucky(l.world) {
      var sent := l.(world := SendTo(l.world, r));
      NextOk(sent);
      var (s, w) := NextFrom(sent);
      MovesTrans(l.world, sent.world, w);
      if Reply(s).Some? && s.msg.value.op == DISPATCH && Unasked(l.world) && r.ResumeRequest? {
        ResumeAttaches(sent.world.link, w, s.msg.value);
      }
    }
  }

  lemma ExchangeGood(l: Line, r: Request)
    requires Good(l)
    ensures Exchange(l, r).1.Some? ==> Good(Exchange(l, r).0)
  {
    ExchangeOk(l, r);
  }

  // A connection that is open and in step with the log, with the first event buffered.
  ghost predicate InStep(l: Line, buffered: Option<Payload>, session: string, number: int) {
    Good(l) && Attached(l.world, buffered, session, number)
  }

  ghost predicate OpenedOk(w: World, session: string, number: int, o: Opened) {
    && Moves(w, o.line.world)
    && (o.session == session || o.session == "")
    && (o.first.Some? ==> o.first.value.op == DISPATCH && InStep(o.line, o.first, o.session, number))
  }

  lemma IdentifiedOk(l: Line, number: int, a: Attempt)
    requires Good(l)
    ensures OpenedOk(l.world, "", number, Identified(l, "", a)) && Identified(l, "", a).line.world.dials == l.world.dials
  {
    ExchangeOk(l, IdentifyRequest);
  }

  lemma ResumedOk(l: Line, session: string, number: int, a: Attempt)
    requires Good(l) && Unasked(l.world)
    ensures var (o, refused) := Resumed(l, session, number, a);
            && OpenedOk(l.world, session, number, o) && o.line.world.dials == l.world.dials
            && (refused ==> Good(o.line) && o.session == "" && o.first.None?)
  {
    ExchangeOk(l, ResumeRequest(session, number));
    var (m, reply) := Exchange(l, ResumeRequest(session, number));
    if reply.Some? && reply.value.op == INVALID_SESSION {
      AdvanceOk(m.world);
      MovesTrans(l.world, m.world, Advance(m.world));
    }
  }

  lemma ShakeHandsOk(l: Line, session: string, number: int, a: Attempt)
    requires Good(l) && Unasked(l.world)
    ensures var o := ShakeHands(l, session, number, a);
            OpenedOk(l.world, session, number, o) && o.line.world.dials == l.world.dials
  {
    if session == "" {
      IdentifiedOk(l, number, a);
    } else {
      ResumedOk(l, session, number, a);
      var (o, refused) := Resumed(l, session, number, a);
      if refused {
        IdentifiedOk(o.line, number, o.attempt);
        MovesTrans(l.world, o.line.world, Identified(o.line, "", o.attempt).line.world);
      }
    }
  }

  lemma GreetOk(w: World, session: string, number: int, a: Attempt)
    requires WfWorld(w) && Unasked(w)
    ensures var o := Greet(w, session, number, a);
            && OpenedOk(w, session, number, o) && o.line.world.dials == w.dials
            && (o.first.Some? ==> Ticker(w).Some? && Ticker(w).value > 0)
  {
    ReadOk(w);
    var (v, hello) := ReadFrom(w);
    if hello.Some? && Greets(hello.value) {
      var b, l := a.(dialed := true, hello := hello), Line(v, false, FRESH_HISTORY);
      ShakeHandsOk(l, session, number, b);
      MovesTrans(w, v, ShakeHands(l, session, number, b).line.world);
    }
  }

  // What every attempt keeps: a success leaves the connection in step with the log, its first event
  // buffered and not yet counted.
  lemma OpenOk(w: World, session: string, number: int, last: Option<Payload>)
    requires WfWorld(w)
    ensures var o := Open(w, session, number, last);
            OpenedOk(w, session, number, o) && (o.first.Some? ==> |o.line.world.turns| < |w.turns|)
            && Spent(w, o.line.world)
            && (o.first.Some? ==>
                  && o.line.world.dials == Dial(Advance(w)).dials
                  && Ticker(Dial(Advance(w))).Some? && Ticker(Dial(Advance(w))).value > 0)
  {
    AdvanceOk(w);
    DialedOk(w);
    if Lucky(w) {
      var u, a := Dial(Advance(w)), FirstAttempt(session != "", last);
      GreetOk(u, session, number, a);
      MovesTrans(w, u, Greet(u, session, number, a).line.world);
    }
  }

  // ---------- Records of attempts ----------

  // The record is coherent, tells the truth about what was held before, and says how it ended. A
  // Resume frame carries exactly the session held and the number reached. Only a refusal gives up
  // the session, and then, if the context lasts, Identify is sent.
  predicate Tells(o: Opened, session: string, number: int, consumed: Option<Payload>) {
    && Coherent(o.attempt)
    && o.attempt.isResume == (session != "") && o.attempt.consumed == consumed
    && o.attempt.resumeSent in {None, Some(ResumeFrame(session, number))}
    && o.attempt.success == (if o.first.Some? then Some(o.session != "") else None)
    && (o.first.Some? ==> o.first == if o.session != "" then o.attempt.resumeReply else o.attempt.identifyReply)
    && o.session == (if GivesUp(o.attempt.resumeReply) then "" else session)
    && (GivesUp(o.attempt.resumeReply) ==> o.attempt.identifySent.Some? || o.line.world.done)
  }

  // The server refused to resume.
  predicate GivesUp(reply: Option<Payload>) {
    reply.Some? && reply.value.op == INVALID_SESSION
  }

  // An attempt that has had its hello, and perhaps a refusal to resume.
  predicate Ready(a: Attempt) {
    && a.dialed && a.hello.Some? && Greets(a.hello.value)
    && a.identifySent.None? && a.identifyReply.None? && a.success.None?
  }

  // Identifying is all that is left of an attempt begun with this session and number.
  predicate Refused(a: Attempt, session: string, number: int) {
    && Ready(a) && a.isResume == (session != "")
    && if session != "" then
         && a.resumeSent == Some(ResumeFrame(session, number))
         && a.consumed.Some? && number == a.consumed.value.number
         && a.resumeReply.Some? && a.resumeReply.value.op == INVALID_SESSION
       else a.resumeSent.None? && a.resumeReply.None?
  }

  lemma IdentifiedCoherent(l: Line, a: Attempt, session: string, number: int)
    requires Good(l) && Refused(a, session, number)
    ensures Tells(Identified(l, "", a), session, number, a.consumed)
  {
  }

  lemma ResumedCoherent(l: Line, session: string, number: int, a: Attempt)
    requires Good(l) && Ready(a) && a.isResume && session != "" && a.resumeReply.None?
    requires a.consumed.Some? && a.consumed.value.number == number
    ensures var (o, refused) := Resumed(l, session, number, a);
            if refused then Refused(o.attempt, session, number) && o.session == "" && o.attempt.consumed == a.consumed
            else Tells(o, session, number, a.consumed)
  {
  }

  lemma ShakeHandsCoherent(l: Line, session: string, number: int, a: Attempt)
    requires Good(l) && Ready(a) && a.isResume == (session != "") && a.resumeSent.None? && a.resumeReply.None?
    requires session != "" ==> a.consumed.Some? && a.consumed.value.number == number
    ensures Tells(ShakeHands(l, session, number, a), session, number, a.consumed)
  {
    if session == "" {
      IdentifiedCoherent(l, a, session, number);
    } else {
      RefusedGood(l, session, number, a);
      ResumedCoherent(l, session, number, a);
      var (o, refused) := Resumed(l, session, number, a);
      if refused {
        IdentifiedCoherent(o.line, o.attempt, session, number);
      }
    }
  }

  // Every attempt is coherent: Resume carries the session held and the number of the last dispatch
  // consumed, Identify is sent only without a session, and success is what the callbacks were told.
  lemma OpenCoherent(w: World, session: string, number: int, last: Option<Payload>)
    requires WfWorld(w) && (session != "" ==> last.Some? && last.value.number == number)
    ensures Tells(Open(w, session, number, last), session, number, last)
    ensures Lucky(w) <==> Open(w, session, number, last).attempt.dialed
  {
    AdvanceOk(w);
    DialedOk(w);
    if Lucky(w) {
      var u, a := Dial(Advance(w)), FirstAttempt(session != "", last);
      ReadOk(u);
      var (v, hello) := ReadFrom(u);
      if hello.Some? && Greets(hello.value) {
        ShakeHandsCoherent(Line(v, false, FRESH_HISTORY), session, number, a.(dialed := true, hello := hello));
      }
    }
  }

  lemma ShakeHandsHello(l: Line, session: string, number: int, a: Attempt)
    requires Good(l)
    ensures ShakeHands(l, session, number, a).attempt.hello == a.hello
  {
    RefusedGood(l, session, number, a);
  }

  // The hello of an attempt that succeeds decodes, and its interval, positive, is the ticker's.
  lemma OpenHello(w: World, session: string, number: int, last: Option<Payload>)
    requires WfWorld(w) && Open(w, session, number, last).first.Some?
    ensures var hello := Open(w, session, number, last).attempt.hello;
            hello.Some? && hello.value.op == HELLO && HelloMillis(hello.value.data) == Ticker(Dial(Advance(w)))
  {
    DialedOk(w);
    var u, a := Dial(Advance(w)), FirstAttempt(session != "", last);
    ReadOk(u);
    var (v, hello) := ReadFrom(u);
    if hello.Some? && Greets(hello.value) {
      ShakeHandsHello(Line(v, false, FRESH_HISTORY), session, number, a.(dialed := true, hello := hello));
    }
  }

  // ---------- The client's state ----------

  // `conn` is which dial the open connection came from, `heartbeat` the interval of the running ticker.
  datatype Client = Client(
    conn: Option<nat>,
    heartbeat: Option<int>,
    line: Line,
    buffered: Option<Payload>,
    session: string,
    number: int,
    seen: Seen,
    attempts: seq<Attempt>)

  // The client's view of its session is right, whatever its connection.
  ghost predicate Knows(c: Client) {
    && WfWorld(c.line.world)
    && Progress(c.line.world.logs, c.session, c.number, c.seen)
    && Records(c.line.world.logs, c.attempts)
  }

  // It stays right while the server's logs grow.
  lemma KnowsExtends(c: Client, l: Line)
    requires Knows(c) && WfWorld(l.world) && Extends(c.line.world.logs, l.world.logs)
    ensures Knows(c.(line := l))
  {
    ProgressExtends(c.line.world.logs, l.world.logs, c.session, c.number, c.seen);
    RecordsExtend(c.line.world.logs, l.world.logs, c.attempts);
  }

  ghost predicate Inv(c: Client) {
    && Knows(c)
    && (c.conn.Some? <==> c.heartbeat.Some?)
    && (c.conn.Some? ==> c.conn == Some(c.line.world.dials) && InStep(c.line, c.buffered, c.session, c.number))
    && (c.conn.Some? && c.buffered.Some? ==> c.buffered.value.op == DISPATCH)
  }

  // The client in a caller's context.
  function Entered(c: Client, ctx: Context): Client {
    c.(line := c.line.(world := c.line.world.(turns := ctx.turns, done := ctx.done)))
  }

  lemma EnteredOk(c: Client, ctx: Context)
    requires Inv(c)
    ensures Inv(Entered(c, ctx))
  {
  }

  // ---------- Connecting ----------

  // An existing connection is left alone; otherwise this is one attempt to get one.
  function Connect(c: Client): Client
    requires WfWorld(c.line.world)
  {
    if c.conn.Some? then c
    else
      var o, dialed := Open(c.line.world, c.session, c.number, c.seen.last), Dial(Advance(c.line.world));
      Client(if o.first.Some? then Some(dialed.dials) else None, if o.first.Some? then Ticker(dialed) else None,
             o.line, o.first, o.session, c.number, c.seen, c.attempts + [o.attempt])
  }

  // What connecting and waiting keep: nothing is consumed, and at most the session is given up.
  ghost predicate Keeps(c: Client, d: Client) {
    && Inv(d) && Moves(c.line.world, d.line.world)
    && d.number == c.number && d.seen == c.seen && c.attempts <= d.attempts
    && (d.session == c.session || d.session == "")
  }

  lemma KeepsTrans(c: Client, d: Client, e: Client)
    requires Keeps(c, d) && Keeps(d, e)
    ensures Keeps(c, e)
  {
    MovesTrans(c.line.world, d.line.world, e.line.world);
  }

  lemma AttemptKeeps(c: Client, o: Opened)
    requires Inv(c) && c.conn.None? && OpenedOk(c.line.world, c.session, c.number, o)
    requires Tells(o, c.session, c.number, c.seen.last)
    ensures Keeps(c, c.(line := o.line, session := o.session, attempts := c.attempts + [o.attempt]))
  {
    KnowsExtends(c, o.line);
  }

  lemma ConnectOk(c: Client)
    requires Inv(c)
    ensures var d := Connect(c);
            && Keeps(c, d)
            && (c.conn.None? ==>
                  && (d.conn.Some? <==> d.buffered.Some?)
                  && Spent(c.line.world, d.line.world)
                  && (d.conn.Some? ==> d.heartbeat.value > 0 && |d.line.world.turns| < |c.line.world.turns|)
                  && |d.attempts| == |c.attempts| + 1
                  && var hello := d.attempts[|c.attempts|].hello;
                     d.conn.Some? ==> hello.Some? && d.heartbeat == HelloMillis(hello.value.data))
  {
    if c.conn.None? {
      if Open(c.line.world, c.session, c.number, c.seen.last).first.Some? {
        OpenHello(c.line.world, c.session, c.number, c.seen.last);
      }
      OpenOk(c.line.world, c.session, c.number, c.seen.last);
      OpenCoherent(c.line.world, c.session, c.number, c.seen.last);
      AttemptKeeps(c, Open(c.line.world, c.session, c.number, c.seen.last));
    }
  }

  lemma ConnectInv(c: Client)
    requires Inv(c)
    ensures Inv(Connect(c)) && |Connect(c).line.world.turns| <= |c.line.world.turns|
  {
    ConnectOk(c);
  }

  function Slept(c: Client): Client {
    c.(line := c.line.(world := Advance(c.line.world)))
  }

  lemma SleptOk(c: Client)
    requires Inv(c) && c.conn.None?
    ensures Keeps(c, Slept(c)) && Spent(c.line.world, Slept(c).line.world)
    ensures Wakes(c.line.world) ==> |Slept(c).line.world.turns| < |c.line.world.turns|
  {
    AdvanceOk(c.line.world);
    KnowsExtends(c, c.line.(world := Advance(c.line.world)));
  }

  lemma SleptInv(c: Client)
    requires Inv(c) && c.conn.None?
    ensures Inv(Slept(c))
    ensures Wakes(c.line.world) ==> |Slept(c).line.world.turns| < |c.line.world.turns|
  {
    SleptOk(c);
  }

  // After an attempt, tries again every five seconds until connected or until the context is done.
  function Retry(c: Client): Client
    requires Inv(c)
    decreases |c.line.world.turns|
  {
    if c.conn.Some? then c
    else
      SleptInv(c);
      ConnectInv(Slept(c));
      if Wakes(c.line.world) then Retry(Connect(Slept(c))) else Slept(c)
  }

  function EnsureConn(c: Client): Client
    requires Inv(c)
  {
    ConnectInv(c);
    Retry(Connect(c))
  }

  lemma {:induction false} RetryOk(c: Client)
    requires Inv(c) && (c.conn.None? ==> c.buffered.None?)
    ensures var d := Retry(c);
            && Keeps(c, d)
            && (c.conn.Some? ==> d == c)
            && (c.conn.None? && d.conn.Some? ==> d.buffered.Some? && |d.line.world.turns| < |c.line.world.turns|)
            && (d.conn.None? ==> d.line.world.done && d.buffered.None?)
    decreases |c.line.world.turns|
  {
    if c.conn.None? {
      SleptOk(c);
      if Wakes(c.line.world) {
        var d := Connect(Slept(c));
        ConnectOk(Slept(c));
        RetryOk(d);
        KeepsTrans(c, Slept(c), d);
        KeepsTrans(c, d, Retry(d));
      }
    }
  }

  lemma EnsureConnOk(c: Client)
    requires Inv(c)
    ensures var d := EnsureConn(c);
            && Keeps(c, d)
            && (c.conn.Some? ==> d == c)
            && (c.conn.None? && d.conn.Some? ==> d.buffered.Some? && |d.line.world.turns| < |c.line.world.turns|)
            && (d.conn.None? ==> d.line.world.done && d.buffered.None?)
  {
    ConnectOk(c);
    RetryOk(Connect(c));
    KeepsTrans(c, Connect(c), EnsureConn(c));
  }

  lemma EnsureConnInv(c: Client)
    requires Inv(c)
    ensures var d := EnsureConn(c);
            && Inv(d) && Later(c.line.world, d.line.world)
            && (d.conn.None? ==> d.line.world.done)
            && (c.conn.Some? ==> d == c)
            && (c.conn.None? && d.conn.Some? ==> |d.line.world.turns| < |c.line.world.turns|)
  {
    EnsureConnOk(c);
  }

  // ---------- Events ----------

  // A dispatch that the open link has just moved past, consumed.
  function Consume(c: Client, event: Payload): Client {
    var (session, number) := Recorded(c.session, c.number, event);
    c.(session := session, number := number, seen := Showing(c.seen, event))
  }

  // What the client must hold once an event was consumed: after READY the session that its data
  // names, or none if the data does not decode; and always the event's number, if it holds a session.
  predicate Holds(d: Client, p: Payload) {
    if p.name != READY then d.number == p.number
    else
      match ReadySession(p.data)
      case None => d.session == ""
      case Some(s) => d.session == s && d.number == p.number
  }

  lemma ConsumeOk(c: Client, event: Payload)
    requires Knows(c) && c.conn == Some(c.line.world.dials) && c.heartbeat.Some?
    requires Good(c.line) && c.buffered.None? && event.op == DISPATCH && Current(c.line.world, event)
    requires c.session != "" ==> c.line.world.link.attached == Some(c.session) && c.line.world.link.taken == c.number + 1
    ensures Inv(Consume(c, event)) && Holds(Consume(c, event), event)
    ensures event.name != READY ==> Consume(c, event).session == c.session
  {
    RecordOk(c.line.world, c.session, c.number, c.seen, event);
  }

  // The connection is closed; an open one takes a turn for that.
  function Closed(c: Client): Client {
    if c.conn.None? then c.(heartbeat := None)
    else c.(conn := None, heartbeat := None, line := c.line.(world := Advance(c.line.world)))
  }

  lemma ClosedOk(c: Client)
    requires Knows(c)
    ensures Inv(Closed(c)) && Moves(c.line.world, Closed(c).line.world) && Closed(c).conn.None?
  {
    AdvanceOk(c.line.world);
    KnowsExtends(c, c.line.(world := Advance(c.line.world)));
  }

  // The next event from an open connection: a dispatch is consumed, anything else hangs up.
  function NextEvent(c: Client): (Client, Option<Payload>)
    requires Good(c.line) && c.conn.Some?
  {
    var (s, w) := NextFrom(c.line);
    var reply, d := Reply(s), c.(line := LineAfter(s, w));
    if reply.Some? && reply.value.op == DISPATCH then (Consume(d, reply.value), reply)
    else (Closed(d.(session := if Invalidates(reply) then "" else c.session)), None)
  }

  // The call of `next` read an Invalid Session whose data is not the literal true.
  predicate Revoked(s: State) {
    Finished(s) && match Outcome(s)
                   case Message(m) => m.Some? && m.value.op == INVALID_SESSION && m.value.data != True
                   case Error(_) => false
  }

  // What reading on does. Only an Invalid Session that rules out resuming gives up the session; a
  // failure, a request to reconnect and everything else keep it.
  lemma NextEventOk(c: Client)
    requires Inv(c) && c.conn.Some? && c.buffered.None?
    ensures var (d, event) := NextEvent(c);
            && Inv(d) && Moves(c.line.world, d.line.world) && Spent(c.line.world, d.line.world)
            && d.buffered.None?
            && (if event.Some? then event.value.op == DISPATCH && d.seen == Showing(c.seen, event.value) && d.conn.Some?
                else d.seen == c.seen && d.conn.None? && d.number == c.number)
            && (event.Some? ==> Holds(d, event.value) && (event.value.name != READY ==> d.session == c.session))
            && (event.None? ==> d.session == if Revoked(NextFrom(c.line).0) then "" else c.session)
  {
    NextOk(c.line);
    var (s, w) := NextFrom(c.line);
    var d := c.(line := LineAfter(s, w));
    KnowsExtends(c, d.line);
    if Reply(s).Some? && s.msg.value.op == DISPATCH {
      NextAttaches(c.line.world, w, s.msg.value, c.session, c.number);
      ConsumeOk(d, s.msg.value);
    } else {
      var e := d.(session := if Invalidates(Reply(s)) then "" else c.session);
      ClosedOk(e);
      MovesTrans(c.line.world, w, Closed(e).line.world);
    }
  }

  // A buffered event is consumed before anything is read.
  function TakeEvent(c: Client): (Client, Option<Payload>)
    requires Good(c.line) && c.conn.Some?
  {
    if c.buffered.Some? then (Consume(c.(buffered := None), c.buffered.value), c.buffered) else NextEvent(c)
  }

  lemma TakeEventOk(c: Client)
    requires Inv(c) && c.conn.Some?
    ensures var (d, event) := TakeEvent(c);
            && Inv(d) && d.buffered.None? && Moves(c.line.world, d.line.world)
            && (if event.Some? then event.value.op == DISPATCH && d.seen == Showing(c.seen, event.value) && d.conn.Some?
                else d.seen == c.seen)
            && (event.Some? ==> Holds(d, event.value) && (event.value.name != READY ==> d.session == c.session))
            && (c.buffered.Some? ==> event == c.buffered && d.line.world == c.line.world)
            && (c.buffered.None? ==> Spent(c.line.world, d.line.world))
  {
    if c.buffered.Some? {
      ConsumeOk(c.(buffered := None), c.buffered.value);
    } else {
      NextEventOk(c);
    }
  }

  lemma TakeEventInv(c: Client)
    requires Inv(c) && c.conn.Some?
    ensures var (d, event) := TakeEvent(c);
            && Inv(d) && d.buffered.None? && Later(c.line.world, d.line.world)
            && (event.Some? ==> event.value.op == DISPATCH)
            && (c.buffered.Some? ==> d.line.world == c.line.world)
            && (c.buffered.None? ==> Spent(c.line.world, d.line.world))
  {
    TakeEventOk(c);
  }

  // The next event that is not RESUMED, reconnecting as needed; none only in a context that is done.
  function Listen(c: Client): (Client, Option<Payload>)
    requires Inv(c)
    decreases |c.line.world.turns|, if c.line.world.done then 0 else 1, if c.buffered.Some? then 1 else 0
  {
    if c.line.world.done then (c, None)
    else
      EnsureConnInv(c);
      var d := EnsureConn(c);
      if d.conn.None? then (d, None)
      else
        TakeEventInv(d);
        var (e, event) := TakeEvent(d);
        if event.Some? && event.value.name != RESUMED then (e, event) else Listen(e)
  }

  // What the caller of Listen gets, told from what had been shown before.
  ghost predicate Listened(since: seq<Payload>, d: Client, msg: Option<Payload>) {
    && Inv(d)
    && match msg
       case None => d.line.world.done && d.seen.since == since
       case Some(p) =>
         && p.op == DISPATCH && p.name != RESUMED && d.conn.Some? && d.buffered.None? && Holds(d, p)
         && d.seen.since == (if p.name == READY then [] else since) + [p]
  }

  lemma {:induction false} ListenOk(c: Client)
    requires Inv(c)
    ensures Listened(c.seen.since, Listen(c).0, Listen(c).1)
    decreases |c.line.world.turns|, if c.line.world.done then 0 else 1, if c.buffered.Some? then 1 else 0
  {
    if !c.line.world.done {
      EnsureConnOk(c);
      var d := EnsureConn(c);
      if d.conn.Some? {
        TakeEventOk(d);
        var (e, event) := TakeEvent(d);
        if !(event.Some? && event.value.name != RESUMED) {
          assert e.seen.since == c.seen.since;
          ListenOk(e);
        }
      }
    }
  }

  // ---------- Whole runs ----------

  datatype Call = ListenCall(ctx: Context) | WaitCall(ctx: Context) | CloseCall(ctx: Context)

  // The client after a call, and what the call returned to its caller.
  function After(c: Client, call: Call): (Client, seq<Payload>)
    requires Inv(c)
  {
    EnteredOk(c, call.ctx);
    match call
    case ListenCall(ctx) =>
      var (d, msg) := Listen(Entered(c, ctx));
      (d, if msg.Some? then [msg.value] else [])
    case WaitCall(ctx) => (EnsureConn(Entered(c, ctx)), [])
    case CloseCall(ctx) => (Closed(Entered(c, ctx)), [])
  }

  // A sequence of calls, with what the ones before them returned.
  function Calls(c: Client, calls: seq<Call>, earlier: seq<Payload>): (Client, seq<Payload>)
    requires Inv(c)
    decreases |calls|
  {
    if calls == [] then (c, earlier)
    else
      AfterOk(c, calls[0]);
      Calls(After(c, calls[0]).0, calls[1..], earlier + After(c, calls[0]).1)
  }

  predicate EndsWith(all: seq<Payload>, tail: seq<Payload>) {
    |tail| <= |all| && all[|all| - |tail|..] == tail
  }

  // A payload that a caller may be given.
  predicate Presentable(p: Payload) {
    p.op == DISPATCH && p.name != RESUMED
  }

  // What one call adds to the payloads shown since the session's READY.
  ghost predicate Shows(since: seq<Payload>, d: Client, returned: seq<Payload>) {
    && Inv(d) && |returned| <= 1
    && if returned == [] then d.seen.since == since
       else
         && Presentable(returned[0])
         && d.seen.since == (if returned[0].name == READY then [] else since) + returned
  }

  lemma AfterOk(c: Client, call: Call)
    requires Inv(c)
    ensures Shows(c.seen.since, After(c, call).0, After(c, call).1)
  {
    var e := Entered(c, call.ctx);
    EnteredOk(c, call.ctx);
    match call
    case ListenCall(_) => ListenOk(e);
    case WaitCall(_) => EnsureConnOk(e);
    case CloseCall(_) => ClosedOk(e);
  }

  // What has been returned so far ends with what was shown since the session's READY.
  ghost predicate Faithful(all: seq<Payload>, since: seq<Payload>) {
    EndsWith(all, since) && forall p :: p in all ==> Presentable(p)
  }

  lemma FaithfulNext(all: seq<Payload>, since: seq<Payload>, d: Client, returned: seq<Payload>)
    requires Faithful(all, since) && Shows(since, d, returned)
    ensures Faithful(all + returned, d.seen.since)
  {
    if returned == [] {
      assert all + returned == all;
    } else {
      var p := returned[0];
      assert returned == [p];
      assert (all + [p])[|all| - |since|..] == all[|all| - |since|..] + [p];
    }
  }

  lemma {:induction false} CallsOk(c: Client, calls: seq<Call>, earlier: seq<Payload>)
    requires Inv(c) && Faithful(earlier, c.seen.since)
    ensures var (d, all) := Calls(c, calls, earlier); Inv(d) && Faithful(all, d.seen.since)
    decreases |calls|
  {
    if calls != [] {
      AfterOk(c, calls[0]);
      var (d, returned) := After(c, calls[0]);
      FaithfulNext(earlier, c.seen.since, d, returned);
      CallsOk(d, calls[1..], earlier + returned);
    }
  }

  // A client that has never connected.
  function Fresh(logs: Logs): Client {
    Client(None, None, Line(World(logs, FRESH_LINK, 0, false, []), false, FRESH_HISTORY), None, "", 0, Seen([], None), [])
  }

  // Exactly-once delivery. Whatever the caller calls and whatever the network, the scheduler and
  // the server do, as long as a session is held at the end, the payloads that Listen returned end
  // with exactly the session's log up to the sequence number, RESUMED left out: nothing lost,
  // repeated or reordered since that session's READY. No payload is ever a RESUMED or a control
  // frame. Every connection attempt was coherent, and its Resume frame, if it sent one, carried the
  // session and number of the last dispatch consumed, an entry of that session's log.
  lemma ExactlyOnce(logs: Logs, calls: seq<Call>)
    requires WfLogs(logs)
    ensures Inv(Fresh(logs))
    ensures var (d, returned) := Calls(Fresh(logs), calls, []);
            && (d.session != "" ==>
                  && d.session in d.line.world.logs
                  && 1 <= d.number <= |d.line.world.logs[d.session]|
                  && EndsWith(returned, Shown(d.line.world.logs[d.session], d.number)))
            && (forall p :: p in returned ==> Presentable(p))
            && forall a :: a in d.attempts ==> Coherent(a) && Anchored(d.line.world.logs, a)
  {
    CallsOk(Fresh(logs), calls, []);
  }
}
