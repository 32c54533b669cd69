// The world outside the client: an abstract Discord server that keeps one log per session, one
// websocket link, and a finite script of what the network, the scheduler and the caller's context
// do next. Everything the client cannot choose is read from the script.
module Discord {
  import opened Protocol
  import NextProtocol

  datatype Entry = Entry(name: EventName, data: Data)

  type Logs = map<string, seq<Entry>>

  // The handshake frame the server has received on the link and not yet answered.
  datatype Request = NoRequest | IdentifyRequest | ResumeRequest(session: string, after: int)

  // `taken` is the log index of the next dispatch the client will read; `sent` the index of the
  // next one the server will send; `inbox` the frames between them, with control frames mixed in.
  datatype Link = Link(request: Request, attached: Option<string>, taken: nat, sent: nat, inbox: seq<Payload>)

  const FRESH_LINK := Link(NoRequest, None, 0, 0, [])

  // What the server may do at any moment.
  datatype Action =
    | Publish(session: string, entry: Entry)
    | Deliver
    | Control(frame: Payload)
    | AcceptIdentify(session: string, data: Data)
    | AcceptResume

  // One network operation or scheduling decision: first the server acts, then the context may
  // end, then the operation succeeds or fails. `step` is the scheduler's choice inside `next`.
  datatype Turn = Turn(actions: seq<Action>, cancels: bool, ok: bool, alsoOk: bool, step: NextProtocol.Step)

  // A caller's context: what happens while it lasts, and whether it was done from the start.
  datatype Context = Context(turns: seq<Turn>, done: bool)

  datatype World = World(logs: Logs, link: Link, dials: nat, done: bool, turns: seq<Turn>)

  // ---------- Well-formed sessions and links ----------

  // A log starts with its READY event, whose data names this session when it names any.
  ghost predicate WfLog(session: string, log: seq<Entry>) {
    && |log| > 0
    && log[0].name == READY
    && NamesSession(session, log[0].data)
    && forall i :: 0 < i < |log| ==> log[i].name != READY
  }

  predicate NamesSession(session: string, d: Data) {
    ReadySession(d) in {None, Some(""), Some(session)}
  }

  ghost predicate WfLogs(logs: Logs) {
    forall s :: s in logs ==> s != "" && WfLog(s, logs[s])
  }

  // Every dispatch carries the next sequence number, counting from READY.
  function FrameAt(log: seq<Entry>, i: nat): Payload
    requires i < |log|
  {
    Payload(DISPATCH, log[i].data, i + 1, log[i].name)
  }

  function Frames(log: seq<Entry>, lo: nat, hi: nat): seq<Payload>
    requires lo <= hi <= |log|
  {
    seq(hi - lo, i requires 0 <= i < hi - lo => FrameAt(log, lo + i))
  }

  function Dispatches(frames: seq<Payload>): seq<Payload> {
    if frames == [] then []
    else (if frames[0].op == DISPATCH then [frames[0]] else []) + Dispatches(frames[1..])
  }

  // `time.NewTicker` needs a positive interval; a hello that decodes announces one.
  predicate HelloOk(p: Payload) {
    p.op == HELLO && HelloMillis(p.data).Some? ==> HelloMillis(p.data).value > 0
  }

  ghost predicate WfLink(logs: Logs, link: Link) {
    && (forall f :: f in link.inbox ==> HelloOk(f))
    && match link.attached
       case None => Dispatches(link.inbox) == []
       case Some(s) =>
         && s in logs
         && link.taken <= link.sent <= |logs[s]|
         && Dispatches(link.inbox) == Frames(logs[s], link.taken, link.sent)
  }

  ghost predicate WfWorld(w: World) {
    WfLogs(w.logs) && WfLink(w.logs, w.link)
  }

  // ---------- Server steps ----------

  function Act(w: World, a: Action): World {
    match a
    case Publish(s, e) =>
      if s in w.logs && e.name != READY then w.(logs := w.logs[s := w.logs[s] + [e]]) else w
    case Deliver =>
      if w.link.attached.Some? && w.link.attached.value in w.logs
         && w.link.sent < |w.logs[w.link.attached.value]|
      then
        var f := FrameAt(w.logs[w.link.attached.value], w.link.sent);
        w.(link := w.link.(sent := w.link.sent + 1, inbox := w.link.inbox + [f]))
      else w
    case Control(f) =>
      if f.op != DISPATCH && HelloOk(f) then
        w.(link := w.link.(inbox := w.link.inbox + [f],
                           request := if f.op == INVALID_SESSION then NoRequest else w.link.request))
      else w
    case AcceptIdentify(s, d) =>
      if w.link.request == IdentifyRequest && w.link.attached.None? && s != "" && s !in w.logs && NamesSession(s, d)
      then w.(logs := w.logs[s := [Entry(READY, d)]],
              link := w.link.(request := NoRequest, attached := Some(s), taken := 0, sent := 0))
      else w
    case AcceptResume =>
      if w.link.request.ResumeRequest? && w.link.attached.None? && w.link.request.session in w.logs
         && 0 <= w.link.request.after <= |w.logs[w.link.request.session]|
      then w.(link := w.link.(request := NoRequest, attached := Some(w.link.request.session),
                              taken := w.link.request.after, sent := w.link.request.after))
      else w
  }

  function ActAll(w: World, actions: seq<Action>): World
    decreases |actions|
  {
    if actions == [] then w else ActAll(Act(w, actions[0]), actions[1..])
  }

  // ---------- Client-visible steps ----------

  // Takes the next turn of the script. A script that has run out is a context that is done.
  function Advance(w: World): World {
    if w.turns == [] then w.(done := true)
    else
      var v := ActAll(w.(turns := w.turns[1..]), w.turns[0].actions);
      v.(done := w.done || w.turns[0].cancels)
  }

  function Dial(w: World): World {
    w.(link := FRESH_LINK, dials := w.dials + 1)
  }

  function Ask(w: World, r: Request): World {
    w.(link := w.link.(request := r))
  }

  // The client takes the frame at the head of the inbox.
  function Take(w: World): World
    requires w.link.inbox != []
  {
    w.(link := w.link.(inbox := w.link.inbox[1..],
                       taken := w.link.taken + if w.link.inbox[0].op == DISPATCH then 1 else 0))
  }

  // ---------- How a world may change ----------

  ghost predicate Extends(logs: Logs, later: Logs) {
    forall s :: s in logs ==> s in later && logs[s] <= later[s]
  }

  // The script only shrinks, and a context that is done stays done.
  predicate Later(w: World, v: World) {
    (w.done ==> v.done) && |v.turns| <= |w.turns|
  }

  // A turn was taken, or there was none left.
  predicate Spent(w: World, v: World) {
    if w.turns == [] then v.done else |v.turns| < |w.turns|
  }

  // From link `a` to link `b` of the same connection, the client having taken n dispatches: an
  // attached link stays with its session, and an unattached one can only be attached where the
  // pending request asked for.
  ghost predicate Follows(a: Link, b: Link, n: nat) {
    match a.attached
    case Some(s) => b.attached == Some(s) && b.taken == a.taken + n
    case None =>
      match b.attached
      case None => n == 0 && (b.request == a.request || b.request == NoRequest)
      case Some(s) =>
        match a.request
        case NoRequest => false
        case IdentifyRequest => b.taken == n
        case ResumeRequest(r, k) => s == r && b.taken == k + n
  }

  lemma FollowsTrans(a: Link, b: Link, c: Link, n: nat, m: nat)
    requires Follows(a, b, n) && Follows(b, c, m)
    ensures Follows(a, c, n + m)
  {
  }

  lemma ExtendsTrans(a: Logs, b: Logs, c: Logs)
    requires Extends(a, b) && Extends(b, c)
    ensures Extends(a, c)
  {
    forall s | s in a
      ensures s in c && a[s] <= c[s]
    {
      assert s in b && a[s] <= b[s];
    }
  }

  lemma {:induction false} DispatchesAppend(frames: seq<Payload>, f: Payload)
    ensures Dispatches(frames + [f]) == Dispatches(frames) + if f.op == DISPATCH then [f] else []
    decreases |frames|
  {
    if frames == [] {
      assert frames + [f] == [f];
    } else {
      var head, last := if frames[0].op == DISPATCH then [frames[0]] else [], if f.op == DISPATCH then [f] else [];
      calc {
        Dispatches(frames + [f]);
        { assert (frames + [f])[1..] == frames[1..] + [f]; }
        head + Dispatches(frames[1..] + [f]);
        { DispatchesAppend(frames[1..], f); }
        head + (Dispatches(frames[1..]) + last);
        head + Dispatches(frames[1..]) + last;
        Dispatches(frames) + last;
      }
    }
  }

  lemma FramesPrefix(log: seq<Entry>, later: seq<Entry>, lo: nat, hi: nat)
    requires lo <= hi <= |log| && log <= later
    ensures Frames(log, lo, hi) == Frames(later, lo, hi)
  {
    forall k | 0 <= k < hi - lo
      ensures Frames(log, lo, hi)[k] == Frames(later, lo, hi)[k]
    {
      assert later[lo + k] == log[lo + k];
      assert Frames(log, lo, hi)[k] == FrameAt(log, lo + k);
      assert Frames(later, lo, hi)[k] == FrameAt(later, lo + k);
    }
  }

  lemma WfLogAppend(s: string, log: seq<Entry>, e: Entry)
    requires WfLog(s, log) && e.name != READY
    ensures WfLog(s, log + [e])
  {
  }

  lemma PublishOk(w: World, s: string, e: Entry)
    requires WfWorld(w)
    ensures var v := Act(w, Publish(s, e));
            WfWorld(v) && Extends(w.logs, v.logs) && v.link == w.link
  {
    var v := Act(w, Publish(s, e));
    if s in w.logs && e.name != READY {
      WfLogAppend(s, w.logs[s], e);
      if w.link.attached == Some(s) {
        FramesPrefix(w.logs[s], v.logs[s], w.link.taken, w.link.sent);
      }
    }
  }

  lemma ControlOk(w: World, f: Payload)
    requires WfWorld(w) && f.op != DISPATCH && HelloOk(f)
    ensures WfWorld(Act(w, Control(f)))
  {
    DispatchesAppend(w.link.inbox, f);
    forall g | g in w.link.inbox + [f]
      ensures HelloOk(g)
    {
    }
  }

  lemma DeliverOk(w: World)
    requires WfWorld(w)
    ensures var v := Act(w, Deliver);
            WfWorld(v) && Follows(w.link, v.link, 0) && v.logs == w.logs
  {
    var v := Act(w, Deliver);
    if v != w {
      var log := w.logs[w.link.attached.value];
      var f := FrameAt(log, w.link.sent);
      DispatchesAppend(w.link.inbox, f);
      assert Frames(log, w.link.taken, w.link.sent + 1) == Frames(log, w.link.taken, w.link.sent) + [f];
      forall g | g in w.link.inbox + [f]
        ensures HelloOk(g)
      {
      }
    }
  }

  // No server step breaks a log, rewrites history, or moves the client's place in it.
  lemma ActOk(w: World, a: Action)
    requires WfWorld(w)
    ensures var v := Act(w, a);
            && WfWorld(v) && Extends(w.logs, v.logs) && Follows(w.link, v.link, 0)
            && v.dials == w.dials && v.done == w.done && v.turns == w.turns
  {
    match a
    case Publish(s, e) => PublishOk(w, s, e);
    case Deliver => DeliverOk(w);
    case Control(f) =>
      if f.op != DISPATCH && HelloOk(f) {
        ControlOk(w, f);
      }
    case AcceptIdentify(s, d) =>
      var v := Act(w, a);
      if v != w {
        assert WfLog(s, v.logs[s]);
        assert Frames(v.logs[s], 0, 0) == [];
      }
    case AcceptResume =>
      var v := Act(w, a);
      if v != w {
        assert Frames(v.logs[v.link.attached.value], v.link.taken, v.link.sent) == [];
      }
  }

  lemma {:induction false} ActAllOk(w: World, actions: seq<Action>)
    requires WfWorld(w)
    ensures var v := ActAll(w, actions);
            && WfWorld(v) && Extends(w.logs, v.logs) && Follows(w.link, v.link, 0)
            && v.dials == w.dials && v.done == w.done && v.turns == w.turns
    decreases |actions|
  {
    if actions != [] {
      var u := Act(w, actions[0]);
      ActOk(w, actions[0]);
      ActAllOk(u, actions[1..]);
      var v := ActAll(w, actions);
      ExtendsTrans(w.logs, u.logs, v.logs);
      FollowsTrans(w.link, u.link, v.link, 0, 0);
    }
  }

  lemma AdvanceOk(w: World)
    requires WfWorld(w)
    ensures var v := Advance(w);
            && WfWorld(v) && Extends(w.logs, v.logs) && Follows(w.link, v.link, 0)
            && v.dials == w.dials && Later(w, v) && Spent(w, v)
  {
    if w.turns != [] {
      ActAllOk(w.(turns := w.turns[1..]), w.turns[0].actions);
    }
  }

  // A dispatch taken from the link is the next entry of the attached session's log.
  lemma TakeOk(w: World)
    requires WfWorld(w) && w.link.inbox != []
    ensures var v := Take(w); var f := w.link.inbox[0];
            && WfWorld(v) && HelloOk(f)
            && Follows(w.link, v.link, if f.op == DISPATCH then 1 else 0)
            && (f.op == DISPATCH ==>
                  && w.link.attached.Some?
                  && w.link.taken < |w.logs[w.link.attached.value]|
                  && f == FrameAt(w.logs[w.link.attached.value], w.link.taken))
  {
    var f := w.link.inbox[0];
    if f.op == DISPATCH {
      assert Dispatches(w.link.inbox)[0] == f;
      var log := w.logs[w.link.attached.value];
      var all := Frames(log, w.link.taken, w.link.sent);
      assert all[1..] == Frames(log, w.link.taken + 1, w.link.sent);
      assert Dispatches(w.link.inbox[1..]) == all[1..];
    } else {
      assert Dispatches(w.link.inbox[1..]) == Dispatches(w.link.inbox);
    }
  }
}
