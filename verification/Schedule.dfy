// One call of `next` under a script: which turns make the two goroutines do what, and how the link
// moves on meanwhile.
module Scheduling {
  import opened Protocol
  import opened Discord
  import opened NextProtocol

  // What has happened on the open connection: heartbeats, and the number of ACKs read.
  datatype History = History(beats: seq<Beat>, acksRead: nat)

  const FRESH_HISTORY := History([], 0)

  // The open connection as the client sees it, with the world at its other end.
  datatype Line = Line(world: World, pendingAck: bool, history: History)

  ghost predicate Good(l: Line) {
    WfWorld(l.world) && Settled(l.pendingAck, l.history.beats, l.history.acksRead)
  }

  function StartOn(l: Line): State {
    Start(l.pendingAck, l.history.beats, l.history.acksRead)
  }

  // The connection once a call of `next` has ended.
  function LineAfter(s: State, w: World): Line {
    Line(w, s.pendingAck, History(s.beats, s.acksRead))
  }

  // The message of a finished call of `next`, if it returned one.
  function Reply(s: State): Option<Payload> {
    if s.first == Some(EventReceived) then s.msg else None
  }

  // Dispatches this call has consumed.
  function Consumed(s: State): nat {
    if s.rd == ReaderDone(EventReceived) && s.msg.Some? && s.msg.value.op == DISPATCH then 1 else 0
  }

  // The payload is the log entry the link has just moved past.
  ghost predicate Current(w: World, p: Payload) {
    && w.link.attached.Some? && w.link.attached.value in w.logs
    && 0 < w.link.taken <= |w.logs[w.link.attached.value]|
    && p == FrameAt(w.logs[w.link.attached.value], w.link.taken - 1)
  }

  // One scheduling decision inside `next`.
  function Interleave(s: State, w: World): (State, World)
    requires Inv(s) && !Finished(s)
  {
    var v := Advance(w);
    match Schedule(s, w.turns, v)
    case None => (s, v)
    case Some(step) => (Do(s, step), if step.Arrive? then Take(v) else v)
  }

  ghost predicate NextLoop(w0: World, w: World, s: State) {
    && WfWorld(w) && Extends(w0.logs, w.logs) && w.dials == w0.dials
    && Later(w0, w)
    && (Finished(s) ==> Spent(w0, w))
    && Follows(w0.link, w.link, Consumed(s))
    && (s.rd == ReaderDone(EventReceived) ==>
          s.msg.Some? && HelloOk(s.msg.value) && (s.msg.value.op == DISPATCH ==> Current(w, s.msg.value)))
  }

  lemma CurrentStays(w: World, v: World, p: Payload)
    requires Current(w, p) && Extends(w.logs, v.logs) && Follows(w.link, v.link, 0)
    ensures Current(v, p)
  {
  }

  // The step that the turn just taken makes the two goroutines do, if any. The end of the caller's
  // context cancels the group's at once; with the script over, they run to their end on their own.
  function Schedule(s: State, turns: seq<Turn>, after: World): (step: Option<Step>)
    requires Inv(s) && !Finished(s)
    requires turns == [] ==> after.done
    ensures step.Some? ==> Enabled(s, step.value)
    ensures step.Some? && step.value.Arrive? ==> after.link.inbox != [] && step.value.frame == after.link.inbox[0]
    ensures turns == [] ==> step.Some? && (s.cancelled || step == Some(ParentCancel))
  {
    if after.done && !s.cancelled then Some(ParentCancel)
    else if turns == [] then Some(if s.hb != HeartbeatDone then HeartbeatExit(s) else ReaderExit(s))
    else match turns[0].step
      case ParentCancel => None
      case Arrive(_) =>
        if s.rd == InRead && after.link.inbox != [] then Some(Arrive(after.link.inbox[0])) else None
      case step => if Enabled(s, step) then Some(step) else None
  }

  lemma AdvanceKeepsLoop(w0: World, w: World, s: State)
    requires NextLoop(w0, w, s) && Inv(s) && !Finished(s)
    ensures NextLoop(w0, Advance(w), s)
  {
    var v := Advance(w);
    AdvanceOk(w);
    ExtendsTrans(w0.logs, w.logs, v.logs);
    FollowsTrans(w0.link, w.link, v.link, Consumed(s), 0);
    if s.rd == ReaderDone(EventReceived) && s.msg.value.op == DISPATCH {
      CurrentStays(w, v, s.msg.value);
    }
  }

  lemma ArriveKeepsLoop(w0: World, v: World, s: State)
    requires NextLoop(w0, v, s) && Inv(s)
    requires v.link.inbox != [] && Enabled(s, Arrive(v.link.inbox[0]))
    requires Spent(w0, v)
    ensures NextLoop(w0, Take(v), Do(s, Arrive(v.link.inbox[0])))
  {
    var f := v.link.inbox[0];
    var t := Do(s, Arrive(f));
    TakeOk(v);
    FollowsTrans(w0.link, v.link, Take(v).link, 0, if f.op == DISPATCH then 1 else 0);
    assert Consumed(s) == 0 && Consumed(t) == if f.op == DISPATCH then 1 else 0;
  }

  lemma LocalKeepsLoop(w0: World, v: World, s: State, step: Step)
    requires NextLoop(w0, v, s) && Inv(s) && Enabled(s, step) && !step.Arrive? && Spent(w0, v)
    ensures NextLoop(w0, v, Do(s, step))
  {
    assert Do(s, step).rd == ReaderDone(EventReceived) <==> s.rd == ReaderDone(EventReceived);
  }

  lemma InterleaveSafe(s: State, w: World)
    requires Inv(s) && !Finished(s) && WfWorld(w)
    ensures var (t, v) := Interleave(s, w);
            && Inv(t) && WfWorld(v) && Later(w, v) && Spent(w, v)
            && (|v.turns| < |w.turns|
                || (|v.turns| == |w.turns| && !s.cancelled && t.cancelled)
                || (|v.turns| == |w.turns| && s.cancelled && t.cancelled && Rank(t) < Rank(s)))
  {
    var u := Advance(w);
    AdvanceOk(w);
    var step := Schedule(s, w.turns, u);
    if step.Some? {
      StepInv(s, step.value);
      if step.value.Arrive? {
        TakeOk(u);
      }
      if s.cancelled {
        CancelledStep(s, step.value);
      }
    }
  }

  // Where the script takes the two goroutines, and the world meanwhile.
  function Drive(s: State, w: World): (State, World)
    requires Inv(s) && WfWorld(w)
    decreases |w.turns|, if s.cancelled then 0 else 1, Rank(s)
  {
    if Finished(s) then (s, w)
    else
      InterleaveSafe(s, w);
      Drive(Interleave(s, w).0, Interleave(s, w).1)
  }

  function NextFrom(l: Line): (State, World)
    requires Good(l)
  {
    StartInv(l.pendingAck, l.history.beats, l.history.acksRead);
    Drive(StartOn(l), l.world)
  }

  // Every finished run of the script is an interleaving of the two goroutines.
  lemma {:induction false} DriveRuns(s: State, w: World) returns (steps: seq<Step>)
    requires Inv(s) && WfWorld(w)
    ensures NextProtocol.Run(s, steps, Drive(s, w).0) && Finished(Drive(s, w).0)
    decreases |w.turns|, if s.cancelled then 0 else 1, Rank(s)
  {
    steps := [];
    if !Finished(s) {
      InterleaveSafe(s, w);
      steps := DriveRuns(Interleave(s, w).0, Interleave(s, w).1);
      var step := Schedule(s, w.turns, Advance(w));
      if step.Some? {
        var all := [step.value] + steps;
        assert all[1..] == steps;
        steps := all;
      }
    }
  }

  lemma InterleaveOk(w0: World, w: World, s: State)
    requires Inv(s) && !Finished(s) && NextLoop(w0, w, s)
    ensures NextLoop(w0, Interleave(s, w).1, Interleave(s, w).0)
  {
    var u := Advance(w);
    AdvanceOk(w);
    AdvanceKeepsLoop(w0, w, s);
    var step := Schedule(s, w.turns, u);
    if step.Some? {
      if step.value.Arrive? {
        ArriveKeepsLoop(w0, u, s);
      } else {
        LocalKeepsLoop(w0, u, s, step.value);
      }
    }
  }

  lemma {:induction false} DriveOk(w0: World, s: State, w: World)
    requires Inv(s) && NextLoop(w0, w, s)
    ensures var (t, v) := Drive(s, w); Inv(t) && Finished(t) && NextLoop(w0, v, t)
    decreases |w.turns|, if s.cancelled then 0 else 1, Rank(s)
  {
    if !Finished(s) {
      InterleaveSafe(s, w);
      InterleaveOk(w0, w, s);
      DriveOk(w0, Interleave(s, w).0, Interleave(s, w).1);
    }
  }

  // The world has moved on under the same connection.
  ghost predicate Advanced(w: World, v: World) {
    WfWorld(v) && Extends(w.logs, v.logs) && v.dials == w.dials && Later(w, v) && Spent(w, v)
  }

  // The message is the last frame read, and the first that is no heartbeat request or ACK.
  ghost predicate IsFirstEvent(read: seq<Payload>, m: Payload) {
    read != [] && m == read[|read| - 1] && !IsBeat(m) && AllBeats(read[..|read| - 1])
  }

  // The link moved past this one message: a dispatch is the next entry of the attached log.
  ghost predicate Reached(w: World, v: World, m: Payload) {
    && HelloOk(m)
    && Follows(w.link, v.link, if m.op == DISPATCH then 1 else 0)
    && (m.op == DISPATCH ==> Current(v, m))
  }

  // What one call of `next` does, whatever the schedule: an error, or the first event on the link,
  // with the link moved past exactly that event and the connection settled.
  lemma NextOk(l: Line)
    requires Good(l)
    ensures var (s, v) := NextFrom(l);
            && Finished(s) && Advanced(l.world, v)
            && match Outcome(s)
               case Error(e) => e.Some? && e != Some(EventReceived)
               case Message(m) =>
                 && m.Some? && IsFirstEvent(s.frames, m.value)
                 && Good(LineAfter(s, v))
                 && Reached(l.world, v, m.value)
  {
    StartInv(l.pendingAck, l.history.beats, l.history.acksRead);
    DriveOk(l.world, StartOn(l), l.world);
  }

  // ---------- Every run has a script ----------

  // One step of the two goroutines, after any number of actions of the server.
  datatype Move = Move(actions: seq<Action>, step: Step)

  function StepsOf(moves: seq<Move>): seq<Step> {
    if moves == [] then [] else [moves[0].step] + StepsOf(moves[1..])
  }

  // A frame that arrives is the next one on the link.
  predicate Fits(w: World, move: Move) {
    var u := ActAll(w, move.actions);
    move.step.Arrive? ==> u.link.inbox != [] && move.step.frame == u.link.inbox[0]
  }

  function Moved(w: World, move: Move): World
    requires Fits(w, move)
  {
    var u := ActAll(w, move.actions);
    match move.step
    case Arrive(_) => Take(u)
    case ParentCancel => u.(done := true)
    case _ => u
  }

  // The moves take the world from `w` to `v`.
  ghost predicate Fed(w: World, moves: seq<Move>, v: World)
    decreases |moves|
  {
    if moves == [] then w == v else Fits(w, moves[0]) && Fed(Moved(w, moves[0]), moves[1..], v)
  }

  function TurnOf(move: Move): Turn {
    Turn(move.actions, move.step.ParentCancel?, true, true, move.step)
  }

  function ScriptOf(moves: seq<Move>): seq<Turn> {
    if moves == [] then []
    else [TurnOf(moves[0])] + ScriptOf(moves[1..])
  }

  lemma {:induction false} ActAllFrame(w: World, actions: seq<Action>, turns: seq<Turn>)
    ensures ActAll(w.(turns := turns), actions) == ActAll(w, actions).(turns := turns)
    ensures ActAll(w, actions).done == w.done && ActAll(w, actions).turns == w.turns
    decreases |actions|
  {
    if actions != [] {
      assert Act(w.(turns := turns), actions[0]) == Act(w, actions[0]).(turns := turns);
      ActAllFrame(Act(w, actions[0]), actions[1..], turns);
    }
  }

  lemma MoveIsTurn(s: State, w: World, move: Move, rest: seq<Turn>)
    requires Inv(s) && !Finished(s) && WfWorld(w) && Enabled(s, move.step) && (w.done ==> s.cancelled) && Fits(w, move)
    ensures Interleave(s, w.(turns := [TurnOf(move)] + rest)) == (Do(s, move.step), Moved(w, move).(turns := rest))
    ensures Moved(w, move).done ==> Do(s, move.step).cancelled
  {
    ActAllFrame(w, move.actions, rest);
    assert ([TurnOf(move)] + rest)[1..] == rest;
    ErrorStep(s, move.step);
  }

  lemma MovedOk(w: World, move: Move)
    requires WfWorld(w) && Fits(w, move)
    ensures WfWorld(Moved(w, move))
  {
    ActAllOk(w, move.actions);
    if move.step.Arrive? {
      TakeOk(ActAll(w, move.actions));
    }
  }

  // Every finished interleaving of the two goroutines, with any actions of the server in between,
  // is what some script makes them do.
  lemma {:induction false} ScriptCovers(s: State, w: World, moves: seq<Move>, t: State, v: World)
    requires Inv(s) && WfWorld(w) && (w.done ==> s.cancelled)
    requires NextProtocol.Run(s, StepsOf(moves), t) && Finished(t) && Fed(w, moves, v)
    ensures Drive(s, w.(turns := ScriptOf(moves))) == (t, v.(turns := []))
    decreases |moves|
  {
    if moves != [] {
      assert StepsOf(moves)[1..] == StepsOf(moves[1..]);
      var rest := ScriptOf(moves[1..]);
      StepInv(s, moves[0].step);
      MovedOk(w, moves[0]);
      MoveIsTurn(s, w, moves[0], rest);
      InterleaveSafe(s, w.(turns := [TurnOf(moves[0])] + rest));
      ScriptCovers(Do(s, moves[0].step), Moved(w, moves[0]), moves[1..], t, v);
    }
  }

  // ---------- An event that waits ----------

  // A turn in which the context lasts.
  predicate Calm(w: World) {
    !w.done && w.turns != [] && !w.turns[0].cancels
  }

  lemma LocalTurn(s: State, w: World)
    requires Inv(s) && !Finished(s) && WfWorld(w) && Calm(w)
    requires var step := w.turns[0].step; Enabled(s, step) && !step.Arrive? && !step.ParentCancel?
    ensures Inv(Do(s, w.turns[0].step)) && WfWorld(Advance(w)) && !Advance(w).done
    ensures Drive(s, w) == Drive(Do(s, w.turns[0].step), Advance(w))
  {
    InterleaveSafe(s, w);
    assert Interleave(s, w) == (Do(s, w.turns[0].step), Advance(w));
  }

  lemma ArriveTurn(s: State, w: World)
    requires Inv(s) && s.rd == InRead && WfWorld(w) && Calm(w)
    requires w.turns[0].step.Arrive? && Advance(w).link.inbox != []
    ensures var t, v := Do(s, Arrive(Advance(w).link.inbox[0])), Take(Advance(w));
            Inv(t) && WfWorld(v) && !v.done && Drive(s, w) == Drive(t, v)
  {
    InterleaveSafe(s, w);
    assert Interleave(s, w) == (Do(s, Arrive(Advance(w).link.inbox[0])), Take(Advance(w)));
  }

  lemma EventEnds(s: State, w: World)
    requires Inv(s) && s.hb == Select && s.rd == ReaderDone(EventReceived) && s.first == Some(EventReceived)
    requires WfWorld(w) && Calm(w) && w.turns[0].step == HeartbeatQuit
    ensures WfWorld(Advance(w)) && Drive(s, w) == (s.(hb := HeartbeatDone), Advance(w))
  {
    LocalTurn(s, w);
  }

  lemma EventArrives(s: State, w: World)
    requires Inv(s) && s.hb == Select && s.rd == InRead && s.first.None?
    requires WfWorld(w) && Calm(w) && w.turns[0].step.Arrive?
    requires Advance(w).link.inbox != [] && !IsBeat(Advance(w).link.inbox[0])
    requires var v := Take(Advance(w)); Calm(v) && v.turns[0].step == HeartbeatQuit
    ensures var v := Take(Advance(w)); var (t, u) := Drive(s, w);
            && Reply(t) == Some(Advance(w).link.inbox[0]) && u == Advance(v)
            && t.pendingAck == s.pendingAck && t.beats == s.beats && t.acksRead == s.acksRead
  {
    ArriveTurn(s, w);
    EventEnds(Do(s, Arrive(Advance(w).link.inbox[0])), Take(Advance(w)));
  }

  // The three turns in which the scheduler lets the reader read an event: the server may act first,
  // and then neither it nor the connection does anything.
  predicate Reads(turns: seq<Turn>) {
    && |turns| >= 3
    && (forall i :: 0 <= i < 3 ==> !turns[i].cancels && (i > 0 ==> turns[i].actions == []))
    && turns[0].step == ReadBegin && turns[1].step.Arrive? && turns[2].step == HeartbeatQuit
  }

  lemma Idle(w: World)
    requires !w.done && w.turns != [] && w.turns[0].actions == [] && !w.turns[0].cancels
    ensures Advance(w) == w.(turns := w.turns[1..])
  {
  }

  // The first of these turns.
  lemma ReadStarts(l: Line)
    requires Good(l) && Calm(l.world) && l.world.turns[0].step == ReadBegin
    ensures var s := StartOn(l).(rd := InRead);
            && Inv(s) && WfWorld(Advance(l.world)) && !Advance(l.world).done
            && NextFrom(l) == Drive(s, Advance(l.world))
  {
    StartInv(l.pendingAck, l.history.beats, l.history.acksRead);
    LocalTurn(StartOn(l), l.world);
  }

  lemma TurnsLeft(w: World)
    requires w.turns != []
    ensures Advance(w).turns == w.turns[1..]
  {
    ActAllFrame(w.(turns := w.turns[1..]), w.turns[0].actions, w.turns[1..]);
  }

  // An event at the head of the link is then returned, and the link is moved past it.
  lemma EventReturns(l: Line)
    requires Good(l) && !l.world.done && Reads(l.world.turns)
    requires var v := Advance(l.world); v.link.inbox != [] && !IsBeat(v.link.inbox[0])
    ensures var v := Advance(l.world); var (t, u) := NextFrom(l);
            && Reply(t) == Some(v.link.inbox[0])
            && LineAfter(t, u) == l.(world := Take(v).(turns := l.world.turns[3..]))
  {
    ReadStarts(l);
    TurnsLeft(l.world);
    EventReturnsFrom(StartOn(l).(rd := InRead), Advance(l.world), l.world.turns);
  }

  lemma EventReturnsFrom(s: State, v: World, turns: seq<Turn>)
    requires Inv(s) && s.hb == Select && s.rd == InRead && s.first.None?
    requires WfWorld(v) && !v.done && Reads(turns) && v.turns == turns[1..]
    requires v.link.inbox != [] && !IsBeat(v.link.inbox[0])
    ensures var (t, u) := Drive(s, v);
            && Reply(t) == Some(v.link.inbox[0]) && u == Take(v).(turns := turns[3..])
            && t.pendingAck == s.pendingAck && t.beats == s.beats && t.acksRead == s.acksRead
  {
    assert turns[1..][0] == turns[1] && turns[1..][1..] == turns[2..];
    assert turns[2..][0] == turns[2] && turns[2..][1..] == turns[3..];
    Idle(v);
    var u := Take(v.(turns := turns[2..]));
    Idle(u);
    assert Advance(u) == Take(v).(turns := turns[3..]);
    EventArrives(s, v);
  }

  // The turns in which the connection fails while the reader reads.
  predicate Breaks(turns: seq<Turn>) {
    && |turns| >= 3
    && (forall i :: 0 <= i < 3 ==> !turns[i].cancels && turns[i].actions == [])
    && turns[0].step == ReadBegin && turns[1].step == ReadFail && turns[2].step == HeartbeatQuit
  }

  lemma BreakEnds(s: State, w: World)
    requires Inv(s) && s.hb == Select && s.rd == ReaderDone(ReadFailed) && s.first == Some(ReadFailed)
    requires WfWorld(w) && Calm(w) && w.turns[0].step == HeartbeatQuit
    ensures WfWorld(Advance(w)) && Drive(s, w) == (s.(hb := HeartbeatDone), Advance(w))
  {
    LocalTurn(s, w);
  }

  lemma BreakFails(s: State, w: World)
    requires Inv(s) && s.hb == Select && s.rd == InRead && s.first.None?
    requires WfWorld(w) && Calm(w) && w.turns[0].step == ReadFail
    requires Calm(Advance(w)) && Advance(w).turns[0].step == HeartbeatQuit
    ensures var (t, u) := Drive(s, w);
            && Reply(t).None? && u == Advance(Advance(w))
            && t.pendingAck == s.pendingAck && t.beats == s.beats && t.acksRead == s.acksRead
  {
    LocalTurn(s, w);
    BreakEnds(Do(s, ReadFail), Advance(w));
  }

  lemma ReadBreaks(l: Line)
    requires Good(l) && !l.world.done && Breaks(l.world.turns)
    ensures var (t, u) := NextFrom(l);
            Reply(t).None? && LineAfter(t, u) == l.(world := l.world.(turns := l.world.turns[3..]))
  {
    var w, turns := l.world, l.world.turns;
    assert turns[1..][0] == turns[1] && turns[1..][1..] == turns[2..];
    assert turns[2..][0] == turns[2] && turns[2..][1..] == turns[3..];
    ReadStarts(l);
    Idle(w);
    Idle(w.(turns := turns[1..]));
    Idle(w.(turns := turns[2..]));
    BreakFails(StartOn(l).(rd := InRead), w.(turns := turns[1..]));
  }
}
