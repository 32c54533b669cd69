// The fake server's per-connection event queue: a lock-protected queue with a one-shot wake-up
// channel, the goroutine that drains it, the goroutine that reads from the client, and the one
// that serializes what both of them send.
module FakeQueue {
  import opened Protocol
  import FakeStore

  type User = FakeStore.User
  type Event = FakeStore.Message

  // Channels are numbered in the order they are made; `closed` lists them in the order closed.
  datatype Queue = Queue(
    authUser: Option<User>,
    queueNotify: Option<nat>,
    queue: seq<Event>,
    made: nat,
    closed: seq<nat>)

  const NEW_QUEUE := Queue(None, None, [], 0, [])

  // ---------- The sections that hold the lock ----------

  function Push(q: Queue, e: Event): Queue {
    var queue := q.queue + [e];
    if |queue| == 1 && q.queueNotify.Some? then
      q.(queue := queue, closed := q.closed + [q.queueNotify.value], queueNotify := None)
    else q.(queue := queue)
  }

  // The drainer either takes the whole queue, or leaves a new channel to be woken by.
  datatype Drained = Batch(events: seq<Event>) | Wait(channel: nat)

  function Drain(q: Queue): (Queue, Drained) {
    if q.queue == [] then (q.(queueNotify := Some(q.made), made := q.made + 1), Wait(q.made))
    else (q.(queue := []), Batch(q.queue))
  }

  // Closing a channel twice would panic.
  ghost predicate CloseOk(q: Queue) {
    && (q.queueNotify.Some? ==> q.queueNotify.value !in q.closed && q.queueNotify.value < q.made)
    && (forall c :: c in q.closed ==> c < q.made)
    && (forall i, j :: 0 <= i < j < |q.closed| ==> q.closed[i] != q.closed[j])
  }

  predicate Addressed(q: Queue, recipients: seq<User>) {
    q.authUser.Some? && q.authUser.value in recipients
  }

  class Gateway {
    var authUser: Option<User>
    var queueNotify: Option<nat>
    var queue: seq<Event>
    ghost var made: nat
    ghost var closed: seq<nat>

    ghost function View(): Queue
      reads this
    {
      Queue(authUser, queueNotify, queue, made, closed)
    }

    constructor ()
      ensures View() == NEW_QUEUE
    {
      authUser, queueNotify, queue := None, None, [];
      made, closed := 0, [];
    }

    method Close(channel: nat)
      requires channel !in closed
      modifies this`closed
      ensures closed == old(closed) + [channel]
    {
      closed := closed + [channel];
    }

    method LockedPush(e: Event)
      requires CloseOk(View())
      modifies this
      ensures View() == Push(old(View()), e)
      ensures CloseOk(View())
    {
      queue := queue + [e];
      if |queue| == 1 && queueNotify.Some? {
        Close(queueNotify.value);
        queueNotify := None;
      }
    }

    // The drainer's critical section; `channel` is the one `make` returns.
    method LockedDrain(channel: nat) returns (d: Drained)
      requires CloseOk(View()) && channel == made
      modifies this
      ensures (View(), d) == Drain(old(View()))
      ensures CloseOk(View())
    {
      if queue == [] {
        made := made + 1;
        queueNotify := Some(channel);
        return Wait(channel);
      }
      d := Batch(queue);
      queue := [];
    }
  }

  // ---------- The goroutines of one connection ----------

  // Asleep waits on a channel or the end of the connection's context; Gone keeps what the drainer
  // had not handed over, and the channel it was waiting on, if any.
  datatype DrainerPc = Top | Asleep(channel: nat) | Sending(batch: seq<Event>) | Gone(batch: seq<Event>, left: Option<nat>)

  datatype Frame = EventFrame(e: Event) | ReadyFrame | InvalidSessionFrame | AckFrame

  datatype ReaderPc = Reading | Offering(frame: Frame) | ReaderGone

  datatype WriterPc = Idle | Writing(frame: Frame) | WriterGone

  // `outbound` lists the frames received from the outbound channel, `wire` those written.
  datatype Conn = Conn(
    q: Queue,
    drainer: DrainerPc,
    reader: ReaderPc,
    writer: WriterPc,
    done: bool,
    registered: bool,
    outbound: seq<Frame>,
    wire: seq<Frame>)

  const NEW_CONN := Conn(NEW_QUEUE, Top, Reading, Idle, false, true, [], [])

  datatype Step =
    | Post(e: Event, recipients: seq<User>)
    | Lock
    | HandEvent
    | BatchDone
    | DrainerQuit
    | Identify(user: Option<User>)
    | Heartbeat
    | HandReply
    | ReaderFail
    | ReaderQuit
    | Write
    | WriteFail
    | WriterQuit
    | ContextDone
    | Unregister

  predicate Enabled(s: Conn, step: Step) {
    match step
    case Post(_, _) => true
    case Lock => s.drainer == Top || (s.drainer.Asleep? && s.drainer.channel in s.q.closed)
    case HandEvent => s.drainer.Sending? && s.drainer.batch != [] && s.writer == Idle
    case BatchDone => s.drainer == Sending([])
    case DrainerQuit => s.done && (s.drainer.Asleep? || (s.drainer.Sending? && s.drainer.batch != []))
    case Identify(_) => s.reader == Reading
    case Heartbeat => s.reader == Reading
    case HandReply => s.reader.Offering? && s.writer == Idle
    case ReaderFail => s.reader == Reading
    case ReaderQuit => s.done && s.reader.Offering?
    case Write => s.writer.Writing?
    case WriteFail => s.writer.Writing?
    case WriterQuit => s.done && s.writer == Idle
    case ContextDone => true
    case Unregister => s.drainer.Gone? && s.reader == ReaderGone && s.writer == WriterGone
  }

  function Do(s: Conn, step: Step): Conn
    requires Enabled(s, step)
  {
    match step
    case Post(e, recipients) =>
      if s.registered && Addressed(s.q, recipients) then s.(q := Push(s.q, e)) else s
    case Lock =>
      var (q, d) := Drain(s.q);
      s.(q := q, drainer := match d case Batch(b) => Sending(b) case Wait(c) => Asleep(c))
    case HandEvent =>
      var f := EventFrame(s.drainer.batch[0]);
      s.(drainer := Sending(s.drainer.batch[1..]), writer := Writing(f), outbound := s.outbound + [f])
    case BatchDone => s.(drainer := Top)
    case DrainerQuit =>
      s.(drainer := if s.drainer.Asleep? then Gone([], Some(s.drainer.channel)) else Gone(s.drainer.batch, None))
    case Identify(u) =>
      if u.Some? then s.(q := s.q.(authUser := u), reader := Offering(ReadyFrame))
      else s.(reader := Offering(InvalidSessionFrame))
    case Heartbeat => s.(reader := Offering(AckFrame))
    case HandReply =>
      s.(reader := Reading, writer := Writing(s.reader.frame), outbound := s.outbound + [s.reader.frame])
    case ReaderFail => s.(reader := ReaderGone, done := true)
    case ReaderQuit => s.(reader := ReaderGone)
    case Write => s.(writer := Idle, wire := s.wire + [s.writer.frame])
    case WriteFail => s.(writer := WriterGone, done := true)
    case WriterQuit => s.(writer := WriterGone)
    case ContextDone => s.(done := true)
    case Unregister => s.(registered := false)
  }

  ghost predicate Run(s: Conn, steps: seq<Step>, t: Conn)
    decreases |steps|
  {
    if steps == [] then s == t
    else Enabled(s, steps[0]) && Run(Do(s, steps[0]), steps[1..], t)
  }

  // ---------- Wake-ups ----------

  // A wake-up channel that is set is open, the queue is empty, and the drainer waits on exactly
  // that channel, unless it has left while waiting on it. A drainer waiting on an open channel
  // waits on the one that is set, so it is never blocked while events are queued.
  ghost predicate WakeInv(s: Conn) {
    && CloseOk(s.q)
    && (s.q.queueNotify.Some? ==>
          && s.q.queue == []
          && (s.drainer == Asleep(s.q.queueNotify.value) || s.drainer == Gone([], s.q.queueNotify)))
    && (s.drainer.Asleep? && s.drainer.channel !in s.q.closed ==> s.q.queueNotify == Some(s.drainer.channel))
  }

  lemma WakeStep(s: Conn, step: Step)
    requires WakeInv(s) && Enabled(s, step)
    ensures WakeInv(Do(s, step))
  {
  }

  lemma {:induction false} WakeRun(s: Conn, steps: seq<Step>, t: Conn)
    requires WakeInv(s) && Run(s, steps, t)
    ensures WakeInv(t)
    decreases |steps|
  {
    if steps != [] {
      WakeStep(s, steps[0]);
      WakeRun(Do(s, steps[0]), steps[1..], t);
    }
  }

  // In every reachable state no wake-up is lost: a set channel means an empty queue and a drainer
  // that waits on it or has left; a drainer with events queued can go on; and no channel has been
  // closed twice.
  lemma NoLostWakeup(steps: seq<Step>, t: Conn)
    requires Run(NEW_CONN, steps, t)
    ensures t.q.queueNotify.Some? ==>
              && t.q.queue == [] && t.q.queueNotify.value !in t.q.closed
              && (t.drainer == Asleep(t.q.queueNotify.value) || t.drainer == Gone([], t.q.queueNotify))
    ensures t.drainer.Asleep? && (t.q.queue != [] || t.q.queueNotify != Some(t.drainer.channel)) ==> Enabled(t, Lock)
    ensures forall i, j :: 0 <= i < j < |t.q.closed| ==> t.q.closed[i] != t.q.closed[j]
  {
    WakeRun(NEW_CONN, steps, t);
  }

  // ---------- The event stream ----------

  // The events that a run should deliver: each message whose recipients include the user the
  // connection had identified as by then, once, while the connection is registered.
  function Due(s: Conn, steps: seq<Step>): seq<Event>
    decreases |steps|
  {
    if steps == [] || !Enabled(s, steps[0]) then []
    else DueNow(s, steps[0]) + Due(Do(s, steps[0]), steps[1..])
  }

  function DueNow(s: Conn, step: Step): seq<Event> {
    if step.Post? && s.registered && Addressed(s.q, step.recipients) then [step.e] else []
  }

  function EventsOf(frames: seq<Frame>): seq<Event> {
    if frames == [] then []
    else
      EventsOf(frames[..|frames| - 1])
      + if frames[|frames| - 1].EventFrame? then [frames[|frames| - 1].e] else []
  }

  function Rest(pc: DrainerPc): seq<Event> {
    match pc
    case Sending(b) => b
    case Gone(b, _) => b
    case _ => []
  }

  // Everything accepted so far: handed over, in the current batch, or queued.
  function Stream(s: Conn): seq<Event> {
    EventsOf(s.outbound) + Rest(s.drainer) + s.q.queue
  }

  lemma EventsAppend(frames: seq<Frame>, f: Frame)
    ensures EventsOf(frames + [f]) == EventsOf(frames) + if f.EventFrame? then [f.e] else []
  {
    assert (frames + [f])[..|frames|] == frames;
  }

  // A reader's reply is not an event.
  predicate RepliesOk(s: Conn) {
    s.reader.Offering? ==> !s.reader.frame.EventFrame?
  }

  // What the writer has received is what is on the wire, then the frame it is writing or lost.
  predicate WireInv(s: Conn) {
    && s.wire <= s.outbound
    && (s.writer == Idle ==> s.wire == s.outbound)
    && (s.writer.Writing? ==> s.outbound == s.wire + [s.writer.frame])
  }

  lemma WireStep(s: Conn, step: Step)
    requires Enabled(s, step) && RepliesOk(s) && WireInv(s)
    ensures RepliesOk(Do(s, step)) && WireInv(Do(s, step))
  {
  }

  lemma HandEventStep(s: Conn)
    requires Enabled(s, HandEvent)
    ensures Stream(Do(s, HandEvent)) == Stream(s)
  {
    var b := s.drainer.batch;
    EventsAppend(s.outbound, EventFrame(b[0]));
    assert b == [b[0]] + b[1..];
    assert EventsOf(s.outbound) + b + s.q.queue == EventsOf(s.outbound) + [b[0]] + b[1..] + s.q.queue;
  }

  lemma StreamStep(s: Conn, step: Step)
    requires Enabled(s, step) && RepliesOk(s)
    ensures Stream(Do(s, step)) == Stream(s) + DueNow(s, step)
  {
    match step {
      case HandEvent => HandEventStep(s);
      case HandReply => EventsAppend(s.outbound, s.reader.frame);
      case Post(e, _) =>
        assert Stream(s) + [e] == EventsOf(s.outbound) + Rest(s.drainer) + (s.q.queue + [e]);
      case Lock => assert Stream(Do(s, Lock)) == Stream(s);
      case _ =>
        var t := Do(s, step);
        assert t.outbound == s.outbound && Rest(t.drainer) == Rest(s.drainer) && t.q.queue == s.q.queue;
    }
  }

  // At every moment, the events handed over, the rest of the current batch, and the queue are
  // together exactly the events due, in order, each once.
  lemma {:induction false} StreamIsDue(s: Conn, steps: seq<Step>, t: Conn)
    requires Run(s, steps, t) && RepliesOk(s) && WireInv(s)
    ensures Stream(t) == Stream(s) + Due(s, steps)
    ensures RepliesOk(t) && WireInv(t)
    decreases |steps|
  {
    if steps != [] {
      var u := Do(s, steps[0]);
      StreamStep(s, steps[0]);
      WireStep(s, steps[0]);
      StreamIsDue(u, steps[1..], t);
    }
  }

  lemma {:induction false} EventsPrefix(frames: seq<Frame>, all: seq<Frame>)
    requires frames <= all
    ensures EventsOf(frames) <= EventsOf(all)
    decreases |all|
  {
    if frames != all {
      assert frames <= all[..|all| - 1];
      EventsPrefix(frames, all[..|all| - 1]);
    }
  }

  // So what reaches the client is always a prefix of what is due to it.
  lemma WireIsPrefixOfDue(steps: seq<Step>, t: Conn)
    requires Run(NEW_CONN, steps, t)
    ensures EventsOf(t.wire) <= Due(NEW_CONN, steps)
    ensures Stream(t) == Due(NEW_CONN, steps)
  {
    StreamIsDue(NEW_CONN, steps, t);
    assert Stream(NEW_CONN) == [];
    EventsPrefix(t.wire, t.outbound);
    assert EventsOf(t.outbound) <= Stream(t);
  }

  // ---------- Replies ----------

  function RepliesOf(frames: seq<Frame>): seq<Frame> {
    if frames == [] then []
    else
      RepliesOf(frames[..|frames| - 1])
      + if frames[|frames| - 1].EventFrame? then [] else [frames[|frames| - 1]]
  }

  // The replies a run owes the client: an ACK to each heartbeat, and to each identify message READY
  // if it names a user, and otherwise Invalid Session.
  function Owed(steps: seq<Step>): seq<Frame> {
    if steps == [] then [] else OwedNow(steps[0]) + Owed(steps[1..])
  }

  function OwedNow(step: Step): seq<Frame> {
    match step
    case Heartbeat => [AckFrame]
    case Identify(user) => [if user.Some? then ReadyFrame else InvalidSessionFrame]
    case _ => []
  }

  // Replies handed over, and the one on offer.
  function Replied(s: Conn): seq<Frame> {
    RepliesOf(s.outbound) + if s.reader.Offering? then [s.reader.frame] else []
  }

  lemma RepliesAppend(frames: seq<Frame>, f: Frame)
    ensures RepliesOf(frames + [f]) == RepliesOf(frames) + if f.EventFrame? then [] else [f]
  {
    assert (frames + [f])[..|frames|] == frames;
  }

  lemma HandReplyStep(s: Conn)
    requires Enabled(s, HandReply) && RepliesOk(s)
    ensures Replied(Do(s, HandReply)) == Replied(s)
  {
    RepliesAppend(s.outbound, s.reader.frame);
  }

  lemma HandEventKeepsReplies(s: Conn)
    requires Enabled(s, HandEvent)
    ensures Replied(Do(s, HandEvent)) == Replied(s)
  {
    RepliesAppend(s.outbound, EventFrame(s.drainer.batch[0]));
  }

  // What a step other than the reader's quitting owes and hands over.
  lemma ReplyStep(s: Conn, step: Step)
    requires Enabled(s, step) && RepliesOk(s)
    ensures if step == ReaderQuit then Replied(Do(s, step)) <= Replied(s)
            else Replied(Do(s, step)) == Replied(s) + OwedNow(step)
  {
    match step
    case HandEvent => HandEventKeepsReplies(s);
    case HandReply => HandReplyStep(s);
    case _ => assert Do(s, step).outbound == s.outbound;
  }

  lemma ReaderStaysGone(s: Conn, step: Step)
    requires Enabled(s, step) && s.reader == ReaderGone
    ensures Do(s, step).reader == ReaderGone && OwedNow(step) == []
  {
  }

  lemma {:induction false} NoRepliesWhenGone(s: Conn, steps: seq<Step>, t: Conn)
    requires Run(s, steps, t) && RepliesOk(s) && s.reader == ReaderGone
    ensures Replied(t) == Replied(s) && Owed(steps) == [] && t.reader == ReaderGone
    decreases |steps|
  {
    if steps != [] {
      ReplyStep(s, steps[0]);
      ReaderStaysGone(s, steps[0]);
      NoRepliesWhenGone(Do(s, steps[0]), steps[1..], t);
    }
  }

  lemma OwedFirst(before: seq<Frame>, steps: seq<Step>)
    requires steps != []
    ensures before + Owed(steps) == before + OwedNow(steps[0]) + Owed(steps[1..])
  {
  }

  lemma RepliesStayOk(s: Conn, step: Step)
    requires Enabled(s, step) && RepliesOk(s)
    ensures RepliesOk(Do(s, step))
  {
  }

  // Every heartbeat and identify message gets its reply, in order, until the reader ends.
  lemma {:induction false} RepliesInOrder(s: Conn, steps: seq<Step>, t: Conn)
    requires Run(s, steps, t) && RepliesOk(s)
    ensures Replied(t) <= Replied(s) + Owed(steps)
    ensures t.reader != ReaderGone ==> Replied(t) == Replied(s) + Owed(steps)
    decreases |steps|
  {
    if steps != [] {
      var u := Do(s, steps[0]);
      OwedFirst(Replied(s), steps);
      ReplyStep(s, steps[0]);
      RepliesStayOk(s, steps[0]);
      if u.reader == ReaderGone {
        NoRepliesWhenGone(u, steps[1..], t);
      } else {
        RepliesInOrder(u, steps[1..], t);
      }
    }
  }

  // ---------- Progress ----------

  predicate Alive(s: Conn) {
    !s.done && s.writer != WriterGone && !s.drainer.Gone?
  }

  // What is left to do before everything accepted is on the wire.
  function Left(s: Conn): nat {
    (if s.writer.Writing? then 1 else 0) + 3 * |Rest(s.drainer)| + 5 * |s.q.queue|
    + (if s.drainer.Sending? then 1 else 0)
  }

  function NextStep(s: Conn): Step {
    if s.writer.Writing? then Write
    else if s.drainer.Sending? then (if s.drainer.batch == [] then BatchDone else HandEvent)
    else Lock
  }

  lemma NothingLeft(s: Conn)
    requires Alive(s) && WireInv(s) && !s.writer.Writing? && !s.drainer.Sending? && s.q.queue == []
    ensures EventsOf(s.wire) == Stream(s)
  {
  }

  lemma NextStepOk(s: Conn)
    requires Alive(s) && WakeInv(s) && RepliesOk(s) && WireInv(s)
    requires s.writer.Writing? || s.drainer.Sending? || s.q.queue != []
    ensures var step := NextStep(s);
            && Enabled(s, step) && step in {Lock, BatchDone, HandEvent, Write}
            && Alive(Do(s, step)) && Left(Do(s, step)) < Left(s)
  {
  }

  // From a living connection in good order, the drainer and the writer alone put every event
  // accepted so far on the wire.
  lemma {:induction false} Finish(s: Conn) returns (steps: seq<Step>, t: Conn)
    requires Alive(s) && WakeInv(s) && RepliesOk(s) && WireInv(s)
    ensures Run(s, steps, t) && EventsOf(t.wire) == Stream(s)
    ensures |steps| <= Left(s)
    ensures forall i :: 0 <= i < |steps| ==> steps[i] in {Lock, BatchDone, HandEvent, Write}
    decreases Left(s)
  {
    if !s.writer.Writing? && !s.drainer.Sending? && s.q.queue == [] {
      NothingLeft(s);
      steps, t := [], s;
    } else {
      var step := NextStep(s);
      NextStepOk(s);
      WakeStep(s, step);
      StreamStep(s, step);
      WireStep(s, step);
      var rest;
      rest, t := Finish(Do(s, step));
      steps := [step] + rest;
      assert steps[1..] == rest;
    }
  }

  // Nothing gets stuck: in any reachable state of a living connection, the drainer and the writer
  // can put every event that is due on the wire by themselves, in a bounded number of steps.
  lemma DeliversAll(steps: seq<Step>, s: Conn) returns (more: seq<Step>, t: Conn)
    requires Run(NEW_CONN, steps, s) && Alive(s)
    ensures Run(s, more, t) && |more| <= Left(s)
    ensures forall i :: 0 <= i < |more| ==> more[i] in {Lock, BatchDone, HandEvent, Write}
    ensures EventsOf(t.wire) == Due(NEW_CONN, steps)
  {
    WakeRun(NEW_CONN, steps, s);
    StreamIsDue(NEW_CONN, steps, s);
    assert Stream(NEW_CONN) == [];
    more, t := Finish(s);
  }

  // ---------- Shutdown ----------

  // A goroutine has ended only once the connection's context is done, and the connection is
  // unregistered only once all three have.
  predicate ShutdownInv(s: Conn) {
    && (s.drainer.Gone? || s.reader == ReaderGone || s.writer == WriterGone ==> s.done)
    && (!s.registered ==> s.drainer.Gone? && s.reader == ReaderGone && s.writer == WriterGone)
  }

  lemma ShutdownStep(s: Conn, step: Step)
    requires ShutdownInv(s) && Enabled(s, step)
    ensures ShutdownInv(Do(s, step)) && (s.done ==> Do(s, step).done)
  {
  }

  lemma {:induction false} ShutdownRun(s: Conn, steps: seq<Step>, t: Conn)
    requires ShutdownInv(s) && Run(s, steps, t)
    ensures ShutdownInv(t)
    decreases |steps|
  {
    if steps != [] {
      ShutdownStep(s, steps[0]);
      ShutdownRun(Do(s, steps[0]), steps[1..], t);
    }
  }

  // What each goroutine that has not ended does once the context is done.
  function ExitStep(s: Conn): Step {
    if s.writer.Writing? then WriteFail
    else if s.writer == Idle then WriterQuit
    else if s.reader == Reading then ReaderFail
    else if s.reader.Offering? then ReaderQuit
    else if s.drainer == Top then Lock
    else if s.drainer == Sending([]) then BatchDone
    else if !s.drainer.Gone? then DrainerQuit
    else Unregister
  }

  // Bounds the steps left until the connection is unregistered.
  function ExitRank(s: Conn): nat {
    (if s.writer == WriterGone then 0 else 1) + (if s.reader == ReaderGone then 0 else 1)
    + (match s.drainer
       case Gone(_, _) => 0
       case Asleep(_) => 1
       case Sending(b) => if b == [] then 3 else 1
       case Top => 2)
    + if s.registered then 1 else 0
  }

  lemma {:induction false} Exits(s: Conn) returns (steps: seq<Step>, t: Conn)
    requires s.done && ShutdownInv(s)
    ensures Run(s, steps, t) && !t.registered && |steps| <= ExitRank(s)
    decreases ExitRank(s)
  {
    steps, t := [], s;
    if s.registered {
      var step := ExitStep(s);
      ShutdownStep(s, step);
      var rest;
      rest, t := Exits(Do(s, step));
      steps := [step] + rest;
      assert steps[1..] == rest;
    }
  }

  // Once any goroutine of a connection has ended, its context is done, so that the others can end
  // too and the connection be unregistered, by themselves and in at most six steps.
  lemma OneEndsAll(steps: seq<Step>, s: Conn) returns (more: seq<Step>, t: Conn)
    requires Run(NEW_CONN, steps, s)
    requires s.drainer.Gone? || s.reader == ReaderGone || s.writer == WriterGone || s.done
    ensures s.done && Run(s, more, t) && |more| <= 6 && !t.registered
  {
    ShutdownRun(NEW_CONN, steps, s);
    more, t := Exits(s);
  }
}
