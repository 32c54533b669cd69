// The two goroutines of `Gateway.next`: a heartbeat loop and a reader, joined by two unbuffered
// channels and the context that the error group cancels on the first error.
module NextProtocol {
  import opened Protocol

  // What the heartbeat goroutine has done on a connection, oldest first.
  datatype Beat = TickSent | RequestSent | AckHandled

  datatype Err = NoAck | WriteFailed | ReadFailed | Cancelled | EventReceived

  // TickWrite and RequestWrite are at the entry of `write`, before its check of the context;
  // the Writing states are inside the websocket write. AckTaken has received from `acks` but not
  // yet cleared `pendingAck`.
  datatype HeartbeatPc =
    Select | TickWrite | RequestWrite | TickWriting | RequestWriting | AckTaken | HeartbeatDone

  // ReadStart is at the entry of `read`; InRead is inside the websocket read; the Offer states
  // are blocked in a select on a channel send or the end of the context.
  datatype ReaderPc = ReadStart | InRead | OfferRequest | OfferAck | ReaderDone(err: Err)

  // `beats` and `acksRead` are histories of the connection: what was sent and handled on it, and
  // how many ACK frames were read from it. `frames` are the frames read by this call.
  datatype State = State(
    hb: HeartbeatPc,
    rd: ReaderPc,
    cancelled: bool,
    first: Option<Err>,
    msg: Option<Payload>,
    pendingAck: bool,
    beats: seq<Beat>,
    acksRead: nat,
    frames: seq<Payload>)

  datatype Step =
    | Tick | WriteBegin | WriteOk | WriteFail | TakeRequest | TakeAck | ApplyAck | HeartbeatQuit
    | ReadBegin | Arrive(frame: Payload) | ReadFail | OfferQuit | ParentCancel

  function Start(pendingAck: bool, beats: seq<Beat>, acksRead: nat): State {
    State(Select, ReadStart, false, None, None, pendingAck, beats, acksRead, [])
  }

  predicate Writing(pc: HeartbeatPc) {
    pc == TickWriting || pc == RequestWriting
  }

  predicate Offering(pc: ReaderPc) {
    pc == OfferRequest || pc == OfferAck
  }

  predicate Enabled(s: State, step: Step) {
    match step
    case Tick => s.hb == Select
    case WriteBegin => s.hb == TickWrite || s.hb == RequestWrite
    case WriteOk => Writing(s.hb)
    case WriteFail => Writing(s.hb)
    case TakeRequest => s.hb == Select && s.rd == OfferRequest
    case TakeAck => s.hb == Select && s.rd == OfferAck
    case ApplyAck => s.hb == AckTaken
    case HeartbeatQuit => s.hb == Select && s.cancelled
    case ReadBegin => s.rd == ReadStart
    case Arrive(_) => s.rd == InRead
    case ReadFail => s.rd == InRead
    case OfferQuit => Offering(s.rd) && s.cancelled
    case ParentCancel => !s.cancelled
  }

  // The error group keeps the first error and cancels the context.
  function Fail(s: State, e: Err): State {
    s.(first := if s.first.None? then Some(e) else s.first, cancelled := true)
  }

  function HeartbeatFails(s: State, e: Err): State {
    Fail(s, e).(hb := HeartbeatDone)
  }

  function ReaderFails(s: State, e: Err): State {
    Fail(s, e).(rd := ReaderDone(e))
  }

  function Do(s: State, step: Step): State
    requires Enabled(s, step)
  {
    match step
    case Tick => if s.pendingAck then HeartbeatFails(s, NoAck) else s.(hb := TickWrite)
    case WriteBegin =>
      if s.cancelled then HeartbeatFails(s, Cancelled)
      else s.(hb := if s.hb == TickWrite then TickWriting else RequestWriting)
    case WriteOk =>
      s.(hb := Select, pendingAck := true,
         beats := s.beats + [if s.hb == TickWriting then TickSent else RequestSent])
    case WriteFail => HeartbeatFails(s, WriteFailed)
    case TakeRequest => s.(hb := RequestWrite, rd := ReadStart)
    case TakeAck => s.(hb := AckTaken, rd := ReadStart)
    case ApplyAck => s.(hb := Select, pendingAck := false, beats := s.beats + [AckHandled])
    case HeartbeatQuit => s.(hb := HeartbeatDone)
    case ReadBegin =>
      if s.cancelled then ReaderFails(s, Cancelled).(msg := None) else s.(rd := InRead)
    case Arrive(f) =>
      var t := s.(msg := Some(f), frames := s.frames + [f],
                  acksRead := s.acksRead + if f.op == HEARTBEAT_ACK then 1 else 0);
      if f.op == HEARTBEAT then t.(rd := OfferRequest)
      else if f.op == HEARTBEAT_ACK then t.(rd := OfferAck)
      else ReaderFails(t, EventReceived)
    case ReadFail => ReaderFails(s, ReadFailed).(msg := None)
    case OfferQuit => ReaderFails(s, Cancelled)
    case ParentCancel => s.(cancelled := true)
  }

  predicate Finished(s: State) {
    s.hb == HeartbeatDone && s.rd.ReaderDone?
  }

  // What `next` returns once both goroutines have ended: the message exactly when the error
  // group's first error is the "event received" sentinel.
  datatype Result = Message(msg: Option<Payload>) | Error(err: Option<Err>)

  function Outcome(s: State): Result
    requires Finished(s)
  {
    if s.first == Some(EventReceived) then Message(s.msg) else Error(s.first)
  }

  // ---------- What the heartbeat history means ----------

  // A heartbeat has been sent and no ACK has been handled since.
  ghost predicate Outstanding(beats: seq<Beat>) {
    exists i :: 0 <= i < |beats| && beats[i] != AckHandled
                && forall j :: i < j < |beats| ==> beats[j] != AckHandled
  }

  // Before every tick-driven heartbeat, each earlier heartbeat has been acknowledged.
  ghost predicate Disciplined(beats: seq<Beat>) {
    forall i, j :: 0 <= i < j < |beats| && beats[i] != AckHandled && beats[j] == TickSent ==>
      AckBetween(beats, i, j)
  }

  ghost predicate AckBetween(beats: seq<Beat>, i: int, j: int)
    requires 0 <= i < j < |beats|
  {
    exists k :: i < k < j && beats[k] == AckHandled
  }

  // The same facts computed along the history, with the number of ACKs handled.
  datatype Tally = Tally(outstanding: bool, disciplined: bool, acks: nat)

  function Count(t: Tally, b: Beat): Tally {
    match b
    case TickSent => Tally(true, t.disciplined && !t.outstanding, t.acks)
    case RequestSent => Tally(true, t.disciplined, t.acks)
    case AckHandled => Tally(false, t.disciplined, t.acks + 1)
  }

  function TallyOf(beats: seq<Beat>): Tally {
    if beats == [] then Tally(false, true, 0)
    else Count(TallyOf(beats[..|beats| - 1]), beats[|beats| - 1])
  }

  // The state of a connection between two successful calls of `next`: `pendingAck` is right, no
  // heartbeat was sent on a tick with an earlier one unanswered, and every ACK read was handled.
  predicate Settled(pendingAck: bool, beats: seq<Beat>, acksRead: nat) {
    TallyOf(beats) == Tally(pendingAck, true, acksRead)
  }

  lemma TallyAfter(beats: seq<Beat>, b: Beat)
    ensures TallyOf(beats + [b]) == Count(TallyOf(beats), b)
  {
    assert (beats + [b])[..|beats|] == beats;
  }

  lemma OutstandingAfter(beats: seq<Beat>, b: Beat)
    ensures Outstanding(beats + [b]) <==> b != AckHandled
  {
    var bs := beats + [b];
    if b != AckHandled {
      assert bs[|beats|] != AckHandled;
    } else {
      assert bs[|beats|] == AckHandled;
    }
  }

  lemma DisciplinedAfter(beats: seq<Beat>, b: Beat)
    ensures Disciplined(beats + [b]) <==> Disciplined(beats) && (b == TickSent ==> !Outstanding(beats))
  {
    var bs := beats + [b];
    if Disciplined(beats) && (b == TickSent ==> !Outstanding(beats)) {
      forall i, j | 0 <= i < j < |bs| && bs[i] != AckHandled && bs[j] == TickSent
        ensures AckBetween(bs, i, j)
      {
        if j < |beats| {
          assert AckBetween(beats, i, j);
          var k :| i < k < j && beats[k] == AckHandled;
          assert bs[k] == AckHandled;
        } else {
          var k :| i < k < |beats| && beats[k] == AckHandled;
          assert bs[k] == AckHandled;
        }
      }
    }
    if Disciplined(bs) {
      forall i, j | 0 <= i < j < |beats| && beats[i] != AckHandled && beats[j] == TickSent
        ensures AckBetween(beats, i, j)
      {
        assert AckBetween(bs, i, j);
        var k :| i < k < j && bs[k] == AckHandled;
        assert beats[k] == AckHandled;
      }
      forall i | 0 <= i < |beats| && beats[i] != AckHandled && b == TickSent
        ensures exists k :: i < k < |beats| && beats[k] == AckHandled
      {
        assert bs[i] == beats[i] && bs[|beats|] == b;
        assert AckBetween(bs, i, |beats|);
        var k :| i < k < |beats| && bs[k] == AckHandled;
        assert beats[k] == AckHandled;
      }
    }
  }

  // The running tally says exactly what the history says.
  lemma {:induction false} TallyMeans(beats: seq<Beat>)
    ensures TallyOf(beats).outstanding <==> Outstanding(beats)
    ensures TallyOf(beats).disciplined <==> Disciplined(beats)
    ensures TallyOf(beats).acks == multiset(beats)[AckHandled]
  {
    if beats != [] {
      var past, b := beats[..|beats| - 1], beats[|beats| - 1];
      assert beats == past + [b];
      TallyMeans(past);
      OutstandingAfter(past, b);
      DisciplinedAfter(past, b);
    }
  }

  // ---------- The invariant of one call ----------

  ghost predicate AllBeats(frames: seq<Payload>) {
    forall i :: 0 <= i < |frames| ==> IsBeat(frames[i])
  }

  // ACKs the reader has read that the heartbeat goroutine has yet to apply.
  function InFlight(s: State): nat {
    (if s.rd == OfferAck then 1 else 0) + (if s.hb == AckTaken then 1 else 0)
  }

  ghost predicate ReaderInv(s: State) {
    if s.rd == ReaderDone(EventReceived) then
      && s.frames != []
      && s.msg == Some(s.frames[|s.frames| - 1])
      && !IsBeat(s.frames[|s.frames| - 1])
      && AllBeats(s.frames[..|s.frames| - 1])
    else
      AllBeats(s.frames)
  }

  predicate ErrorInv(s: State) {
    && (s.first.Some? ==> s.cancelled)
    && (s.hb == HeartbeatDone ==> s.cancelled)
    && (s.rd.ReaderDone? ==> s.first.Some?)
    && (s.first == Some(EventReceived) ==> s.rd == ReaderDone(EventReceived))
    && (s.rd.ReaderDone? ==> s.rd.err in {ReadFailed, Cancelled, EventReceived})
  }

  predicate BeatInv(s: State) {
    var t := TallyOf(s.beats);
    && t.outstanding == s.pendingAck
    && t.disciplined
    && (s.hb == TickWrite || s.hb == TickWriting ==> !s.pendingAck)
    && (if s.rd == ReaderDone(Cancelled) then s.acksRead >= t.acks + InFlight(s)
        else s.acksRead == t.acks + InFlight(s))
  }

  ghost predicate Inv(s: State) {
    ReaderInv(s) && ErrorInv(s) && BeatInv(s)
  }

  lemma StartInv(pendingAck: bool, beats: seq<Beat>, acksRead: nat)
    requires Settled(pendingAck, beats, acksRead)
    ensures Inv(Start(pendingAck, beats, acksRead))
  {
  }

  lemma WriteOkBeats(s: State)
    requires BeatInv(s) && Enabled(s, WriteOk)
    ensures BeatInv(Do(s, WriteOk))
  {
    TallyAfter(s.beats, if s.hb == TickWriting then TickSent else RequestSent);
  }

  lemma ApplyAckBeats(s: State)
    requires BeatInv(s) && Enabled(s, ApplyAck)
    ensures BeatInv(Do(s, ApplyAck))
  {
    TallyAfter(s.beats, AckHandled);
  }

  // Every other step leaves the history of heartbeats alone.
  lemma OtherBeats(s: State, step: Step)
    requires BeatInv(s) && Enabled(s, step) && step != WriteOk && step != ApplyAck
    ensures BeatInv(Do(s, step))
  {
    assert Do(s, step).beats == s.beats && Do(s, step).pendingAck == s.pendingAck;
  }

  lemma BeatStep(s: State, step: Step)
    requires BeatInv(s) && Enabled(s, step)
    ensures BeatInv(Do(s, step))
  {
    match step
    case WriteOk => WriteOkBeats(s);
    case ApplyAck => ApplyAckBeats(s);
    case _ => OtherBeats(s, step);
  }

  lemma ReaderStep(s: State, step: Step)
    requires ReaderInv(s) && Enabled(s, step)
    ensures ReaderInv(Do(s, step))
  {
    if step.Arrive? {
      assert (s.frames + [step.frame])[..|s.frames|] == s.frames;
    }
  }

  lemma ErrorStep(s: State, step: Step)
    requires ErrorInv(s) && Enabled(s, step)
    ensures ErrorInv(Do(s, step))
    ensures s.cancelled ==> Do(s, step).cancelled
  {
  }

  lemma StepInv(s: State, step: Step)
    requires Inv(s) && Enabled(s, step)
    ensures Inv(Do(s, step))
    ensures s.cancelled ==> Do(s, step).cancelled
  {
    BeatStep(s, step);
    ReaderStep(s, step);
    ErrorStep(s, step);
  }

  // ---------- Runs ----------

  ghost predicate Run(s: State, steps: seq<Step>, t: State)
    decreases |steps|
  {
    if steps == [] then s == t
    else Enabled(s, steps[0]) && Run(Do(s, steps[0]), steps[1..], t)
  }

  lemma {:induction false} RunInv(s: State, steps: seq<Step>, t: State)
    requires Inv(s) && Run(s, steps, t)
    ensures Inv(t)
    decreases |steps|
  {
    if steps != [] {
      StepInv(s, steps[0]);
      RunInv(Do(s, steps[0]), steps[1..], t);
    }
  }

  // Whatever the interleaving, a finished call never returns (nil, nil); and it returns a message
  // exactly when the event beat every error, the message then being the first frame of the call
  // that is neither a heartbeat request nor an ACK, and the last frame read. Then `pendingAck`
  // holds exactly when a heartbeat sent on the connection is unanswered, every tick-driven
  // heartbeat came after an answer to the ones before it, and every ACK read has been handled.
  lemma NextOutcome(pendingAck: bool, beats: seq<Beat>, acksRead: nat, steps: seq<Step>, t: State)
    requires Settled(pendingAck, beats, acksRead)
    requires Run(Start(pendingAck, beats, acksRead), steps, t) && Finished(t)
    ensures match Outcome(t)
            case Error(e) => e.Some? && e != Some(EventReceived)
            case Message(m) =>
              && t.frames != [] && m == Some(t.frames[|t.frames| - 1]) && !IsBeat(m.value)
              && (forall i :: 0 <= i < |t.frames| - 1 ==> IsBeat(t.frames[i]))
              && Settled(t.pendingAck, t.beats, t.acksRead)
              && (t.pendingAck <==> Outstanding(t.beats)) && Disciplined(t.beats)
              && t.acksRead == multiset(t.beats)[AckHandled]
  {
    StartInv(pendingAck, beats, acksRead);
    RunInv(Start(pendingAck, beats, acksRead), steps, t);
    TallyMeans(t.beats);
    if t.rd == ReaderDone(EventReceived) {
      var earlier := t.frames[..|t.frames| - 1];
      assert forall i :: 0 <= i < |earlier| ==> earlier[i] == t.frames[i];
    }
  }

  // ---------- What is answered ----------

  function Among(b: bool): nat {
    if b then 1 else 0
  }

  // Heartbeat requests among the frames read.
  function Requests(frames: seq<Payload>): nat {
    if frames == [] then 0
    else Requests(frames[..|frames| - 1]) + Among(frames[|frames| - 1].op == HEARTBEAT)
  }

  function Sent(beats: seq<Beat>, kind: Beat): nat {
    if beats == [] then 0
    else Sent(beats[..|beats| - 1], kind) + Among(beats[|beats| - 1] == kind)
  }

  lemma SentAppend(beats: seq<Beat>, b: Beat, kind: Beat)
    ensures Sent(beats + [b], kind) == Sent(beats, kind) + Among(b == kind)
  {
    assert (beats + [b])[..|beats|] == beats;
  }

  // Requests answered on the connection, being answered, or on offer.
  function Answers(s: State): nat {
    Sent(s.beats, RequestSent) + Among(s.rd == OfferRequest) + Among(s.hb == RequestWrite || s.hb == RequestWriting)
  }

  // `earlier` is the number of requests answered on the connection before this call. Every request
  // read since was answered, is being offered or answered, or was lost to a goroutine's end.
  predicate Answered(s: State, earlier: nat) {
    Answers(s) <= earlier + Requests(s.frames) <= Answers(s) + Among(s.hb == HeartbeatDone) + Among(s.rd.ReaderDone?)
  }

  lemma RequestsAppend(frames: seq<Payload>, f: Payload)
    ensures Requests(frames + [f]) == Requests(frames) + Among(f.op == HEARTBEAT)
  {
    assert (frames + [f])[..|frames|] == frames;
  }

  // A step that neither reads a frame nor adds to the history of heartbeats.
  lemma AnsweredQuietly(s: State, step: Step, earlier: nat)
    requires Answered(s, earlier) && Enabled(s, step) && !step.Arrive? && step != WriteOk && step != ApplyAck
    ensures Answered(Do(s, step), earlier)
  {
    assert Do(s, step).beats == s.beats && Do(s, step).frames == s.frames;
  }

  lemma AnsweredArrive(s: State, f: Payload, earlier: nat)
    requires Answered(s, earlier) && s.rd == InRead
    ensures Answered(Do(s, Arrive(f)), earlier)
  {
    var t := Do(s, Arrive(f));
    RequestsAppend(s.frames, f);
    assert Requests(t.frames) == Requests(s.frames) + Among(f.op == HEARTBEAT);
    assert Answers(t) == Answers(s) + Among(f.op == HEARTBEAT);
  }

  lemma AnsweredWrite(s: State, earlier: nat)
    requires Answered(s, earlier) && Writing(s.hb)
    ensures Answered(Do(s, WriteOk), earlier)
  {
    SentAppend(s.beats, if s.hb == TickWriting then TickSent else RequestSent, RequestSent);
    assert Answers(Do(s, WriteOk)) == Answers(s);
  }

  lemma AnsweredAck(s: State, earlier: nat)
    requires Answered(s, earlier) && s.hb == AckTaken
    ensures Answered(Do(s, ApplyAck), earlier)
  {
    SentAppend(s.beats, AckHandled, RequestSent);
    assert Answers(Do(s, ApplyAck)) == Answers(s);
  }

  lemma AnsweredStep(s: State, step: Step, earlier: nat)
    requires Answered(s, earlier) && Enabled(s, step)
    ensures Answered(Do(s, step), earlier)
  {
    match step
    case Arrive(f) => AnsweredArrive(s, f, earlier);
    case WriteOk => AnsweredWrite(s, earlier);
    case ApplyAck => AnsweredAck(s, earlier);
    case _ => AnsweredQuietly(s, step, earlier);
  }

  lemma {:induction false} AnsweredRun(s: State, steps: seq<Step>, t: State, earlier: nat)
    requires Answered(s, earlier) && Run(s, steps, t)
    ensures Answered(t, earlier)
    decreases |steps|
  {
    if steps != [] {
      AnsweredStep(s, steps[0], earlier);
      AnsweredRun(Do(s, steps[0]), steps[1..], t, earlier);
    }
  }

  // Every heartbeat request is answered. In any state that an interleaving reaches, the heartbeats
  // sent in answer are as many as the requests read, but for one that is on its way and one for
  // each goroutine that has ended; so with both at rest and nothing cancelled they are equal.
  lemma RequestsAnswered(pendingAck: bool, beats: seq<Beat>, acksRead: nat, steps: seq<Step>, s: State)
    requires Run(Start(pendingAck, beats, acksRead), steps, s)
    ensures Answered(s, Sent(beats, RequestSent))
    ensures s.hb == Select && (s.rd == ReadStart || s.rd == InRead) ==>
              Sent(s.beats, RequestSent) == Sent(beats, RequestSent) + Requests(s.frames)
  {
    AnsweredRun(Start(pendingAck, beats, acksRead), steps, s, Sent(beats, RequestSent));
  }

  function Ticks(steps: seq<Step>): nat {
    if steps == [] then 0 else Among(steps[0] == Tick) + Ticks(steps[1..])
  }

  // Heartbeats sent or being sent because of the ticker.
  function TickBeats(s: State): nat {
    Sent(s.beats, TickSent) + Among(s.hb == TickWrite || s.hb == TickWriting)
  }

  lemma TickStep(s: State, step: Step)
    requires Enabled(s, step)
    ensures var t := Do(s, step);
            && TickBeats(t) <= TickBeats(s) + Among(step == Tick)
            && (s.hb == HeartbeatDone ==> t.hb == HeartbeatDone && step != Tick && TickBeats(t) == TickBeats(s))
            && TickBeats(s) + Among(step == Tick) <= TickBeats(t) + Among(t.hb == HeartbeatDone)
  {
    match step
    case WriteOk => SentAppend(s.beats, if s.hb == TickWriting then TickSent else RequestSent, TickSent);
    case ApplyAck => SentAppend(s.beats, AckHandled, TickSent);
    case _ => assert Do(s, step).beats == s.beats;
  }

  // Every tick leads to a heartbeat, except one that ends the heartbeat goroutine.
  lemma {:induction false} TicksBeat(s: State, steps: seq<Step>, t: State)
    requires Run(s, steps, t)
    ensures TickBeats(t) <= TickBeats(s) + Ticks(steps)
    ensures s.hb == HeartbeatDone ==> t.hb == HeartbeatDone && Ticks(steps) == 0 && TickBeats(t) == TickBeats(s)
    ensures TickBeats(s) + Ticks(steps) <= TickBeats(t) + Among(t.hb == HeartbeatDone)
    decreases |steps|
  {
    if steps != [] {
      TickStep(s, steps[0]);
      TicksBeat(Do(s, steps[0]), steps[1..], t);
    }
  }

  // A goroutine ends only for a reason: a tick with a heartbeat outstanding, a failed operation, the
  // event, or the end of the context. The first reason is the error of the call.
  lemma EndsForAReason(s: State, step: Step)
    requires Enabled(s, step)
    ensures s.hb != HeartbeatDone && Do(s, step).hb == HeartbeatDone ==>
              (step == Tick && s.pendingAck) || step == WriteFail || s.cancelled
    ensures !s.rd.ReaderDone? && Do(s, step).rd.ReaderDone? ==>
              step == ReadFail || s.cancelled || (step.Arrive? && !IsBeat(step.frame))
    ensures s.first.None? && Do(s, step).first.Some? ==>
              Do(s, step).first.value ==
                match step
                case Tick => NoAck
                case WriteFail => WriteFailed
                case ReadFail => ReadFailed
                case Arrive(_) => EventReceived
                case _ => Cancelled
    ensures s.first.None? && !s.cancelled && Do(s, step).cancelled ==> step == ParentCancel || Do(s, step).first.Some?
  {
  }

  lemma {:induction false} FirstErrorStays(s: State, steps: seq<Step>, t: State)
    requires Run(s, steps, t) && s.first.Some?
    ensures t.first == s.first
    ensures s.rd.ReaderDone? ==> t.rd == s.rd && t.msg == s.msg
    decreases |steps|
  {
    if steps != [] {
      FirstErrorStays(Do(s, steps[0]), steps[1..], t);
    }
  }

  // The first error decides: when an event is read before either goroutine has failed, every
  // interleaving that goes on from there returns it, and after a failure none returns a message.
  lemma FirstDecides(s: State, event: Payload, steps: seq<Step>, t: State)
    requires s.rd == InRead && !IsBeat(event) && Run(Do(s, Arrive(event)), steps, t) && Finished(t)
    ensures s.first.None? ==> Outcome(t) == Message(Some(event))
    ensures s.first.Some? && s.first != Some(EventReceived) ==> Outcome(t) == Error(s.first)
  {
    FirstErrorStays(Do(s, Arrive(event)), steps, t);
  }

  // ---------- Progress ----------

  // Steps that need something from outside the process: the ticker, the peer, or the caller.
  predicate Outside(step: Step) {
    step.Tick? || step.WriteOk? || step.Arrive? || step.ParentCancel?
  }

  // A step of its own for each goroutine that has not ended, once the context is cancelled.
  function HeartbeatExit(s: State): Step {
    match s.hb
    case TickWrite => WriteBegin
    case RequestWrite => WriteBegin
    case TickWriting => WriteFail
    case RequestWriting => WriteFail
    case AckTaken => ApplyAck
    case _ => HeartbeatQuit
  }

  function ReaderExit(s: State): Step {
    match s.rd
    case ReadStart => ReadBegin
    case InRead => ReadFail
    case _ => OfferQuit
  }

  // Before cancellation neither goroutine has ended; each is in a network operation, in the
  // ticker's select, or has a step inside the process, and a reader blocked on a channel faces a
  // heartbeat goroutine that receives from it as soon as it is back in its select.
  predicate Working(s: State) {
    && s.hb != HeartbeatDone && !s.rd.ReaderDone?
    && (s.hb == Select || Writing(s.hb) || (Enabled(s, HeartbeatExit(s)) && !Outside(HeartbeatExit(s))))
    && (s.rd == InRead || Offering(s.rd) || Enabled(s, ReadBegin))
    && (Offering(s.rd) && s.hb == Select ==> Enabled(s, TakeRequest) || Enabled(s, TakeAck))
  }

  // After cancellation every goroutine that has not ended can step without any help from outside.
  predicate Ending(s: State) {
    && (s.hb != HeartbeatDone ==> Enabled(s, HeartbeatExit(s)) && !Outside(HeartbeatExit(s)))
    && (!s.rd.ReaderDone? ==> Enabled(s, ReaderExit(s)) && !Outside(ReaderExit(s)))
  }

  lemma WorksOn(s: State)
    requires ErrorInv(s) && !s.cancelled
    ensures Working(s)
  {
  }

  lemma CanMove(s: State)
    requires ErrorInv(s) && s.cancelled
    ensures Ending(s)
  {
  }

  // No deadlock, in any state that an interleaving reaches before both goroutines have ended.
  lemma NoDeadlock(pendingAck: bool, beats: seq<Beat>, acksRead: nat, steps: seq<Step>, s: State)
    requires Settled(pendingAck, beats, acksRead)
    requires Run(Start(pendingAck, beats, acksRead), steps, s)
    ensures if s.cancelled then Ending(s) else Working(s)
  {
    StartInv(pendingAck, beats, acksRead);
    RunInv(Start(pendingAck, beats, acksRead), steps, s);
    if s.cancelled {
      CanMove(s);
    } else {
      WorksOn(s);
    }
  }

  function HeartbeatRank(pc: HeartbeatPc): nat {
    match pc
    case HeartbeatDone => 0
    case TickWrite => 1
    case RequestWrite => 1
    case Select => 2
    case _ => 3
  }

  function ReaderRank(pc: ReaderPc): nat {
    match pc
    case ReaderDone(_) => 0
    case ReadStart => 1
    case InRead => 3
    case _ => 2
  }

  // Bounds the steps left once the context is cancelled.
  function Rank(s: State): (r: nat)
    ensures r <= 9
    ensures r == 0 <==> Finished(s)
  {
    2 * ReaderRank(s.rd) + HeartbeatRank(s.hb)
  }

  lemma CancelledStep(s: State, step: Step)
    requires s.cancelled && Enabled(s, step)
    ensures Do(s, step).cancelled && Rank(Do(s, step)) < Rank(s)
  {
  }

  // From a cancelled state any interleaving ends both goroutines within nine more steps, and one
  // that cannot be extended has ended both.
  lemma {:induction false} EndsOnceCancelled(s: State, steps: seq<Step>, t: State)
    requires Inv(s) && s.cancelled && Run(s, steps, t)
    ensures |steps| <= Rank(s) <= 9
    ensures (forall step :: !Enabled(t, step)) <==> Finished(t)
    decreases |steps|
  {
    if steps == [] {
      CanMove(t);
    } else {
      CancelledStep(s, steps[0]);
      StepInv(s, steps[0]);
      EndsOnceCancelled(Do(s, steps[0]), steps[1..], t);
    }
  }

  // Once either goroutine has ended, with or without an error, every interleaving of the rest is at
  // most nine steps long, and one that cannot be extended has ended both.
  lemma OneEndsBoth(pendingAck: bool, beats: seq<Beat>, acksRead: nat,
                    steps: seq<Step>, s: State, more: seq<Step>, t: State)
    requires Settled(pendingAck, beats, acksRead)
    requires Run(Start(pendingAck, beats, acksRead), steps, s)
    requires s.hb == HeartbeatDone || s.rd.ReaderDone?
    requires Run(s, more, t)
    ensures |more| <= 9
    ensures (forall step :: !Enabled(t, step)) <==> Finished(t)
  {
    StartInv(pendingAck, beats, acksRead);
    RunInv(Start(pendingAck, beats, acksRead), steps, s);
    EndsOnceCancelled(s, more, t);
  }
}
