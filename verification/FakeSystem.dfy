// The whole fake server: one store, and any number of gateway connections with the goroutines of
// each. A successful post is an event for every connection, and a token is looked up in the store.
module FakeSystem {
  import opened Protocol
  import FakeStore
  import FakeQueue

  type User = FakeStore.User
  type Message = FakeStore.Message

  datatype Sys = Sys(store: FakeStore.Store, conns: map<nat, FakeQueue.Conn>)

  const EMPTY_SYS := Sys(FakeStore.EMPTY_STORE, map[])

  // A request to the store; a new connection; the identify message of a client; or any other step
  // of a connection's own.
  datatype Step =
    | Request(op: FakeStore.Op)
    | Connect(id: nat)
    | Identify(id: nat, token: string)
    | Local(id: nat, step: FakeQueue.Step)

  ghost predicate Enabled(s: Sys, step: Step) {
    match step
    case Request(op) => FakeStore.Possible(s.store, op)
    case Connect(id) => id !in s.conns
    case Identify(id, _) => id in s.conns && s.conns[id].reader == FakeQueue.Reading
    case Local(id, own) => id in s.conns && FakeQueue.Enabled(s.conns[id], own) && !own.Post? && !own.Identify?
  }

  // The message that the handler of a request pushes, if any.
  function Pushed(store: FakeStore.Store, op: FakeStore.Op): Option<Message> {
    if !op.PostMessage? then None
    else match FakeStore.CreateMessage(store, op.auth, op.channelID, op.content, op.id).1
      case Ok(m) => Some(m)
      case Err(_) => None
  }

  function Recipients(store: FakeStore.Store, op: FakeStore.Op): seq<User>
    requires Pushed(store, op).Some?
  {
    store.channels[op.channelID].recipients
  }

  ghost function Do(s: Sys, step: Step): Sys
    requires Enabled(s, step)
  {
    match step
    case Request(op) =>
      Sys(FakeStore.Serve(s.store, op),
          match Pushed(s.store, op)
          case None => s.conns
          case Some(m) =>
            map id | id in s.conns :: FakeQueue.Do(s.conns[id], FakeQueue.Post(m, Recipients(s.store, op))))
    case Connect(id) => s.(conns := s.conns[id := FakeQueue.NEW_CONN])
    case Identify(id, token) =>
      var u := FakeStore.TokenUser(s.store, token);
      s.(conns := s.conns[id := FakeQueue.Do(s.conns[id], FakeQueue.Identify(u))])
    case Local(id, own) => s.(conns := s.conns[id := FakeQueue.Do(s.conns[id], own)])
  }

  ghost predicate Run(s: Sys, steps: seq<Step>, t: Sys)
    decreases |steps|
  {
    if steps == [] then s == t
    else Enabled(s, steps[0]) && Run(Do(s, steps[0]), steps[1..], t)
  }

  // ---------- What a connection is due ----------

  // Who a connection has identified as, and whether it is registered.
  datatype Listener = Listener(user: Option<User>, registered: bool)

  function After(store: FakeStore.Store, l: Listener, step: Step, id: nat): Listener {
    match step
    case Connect(n) => if n == id then Listener(None, true) else l
    case Identify(n, token) =>
      if n == id && FakeStore.TokenUser(store, token).Some? then l.(user := FakeStore.TokenUser(store, token)) else l
    case Local(n, own) => if n == id && own.Unregister? then l.(registered := false) else l
    case _ => l
  }

  // The message that a request should post: any recipient of a channel may post what is not empty.
  function Posted(store: FakeStore.Store, op: FakeStore.Op): Option<Message> {
    if op.PostMessage? && FakeStore.CanPost(store, op.auth, op.channelID, op.content)
    then Some(FakeStore.Message(op.id, op.channelID, store.auths[op.auth], op.content.value))
    else None
  }

  // What a step makes due to a listener: the message posted, once, if the channel it was posted to
  // lists the listener's user.
  function DueNow(store: FakeStore.Store, l: Listener, step: Step): seq<Message> {
    if step.Request? && Posted(store, step.op).Some? && l.registered && l.user.Some?
       && l.user.value in store.channels[step.op.channelID].recipients
    then [Posted(store, step.op).value]
    else []
  }

  lemma PushedIsPosted(store: FakeStore.Store, op: FakeStore.Op)
    requires FakeStore.Inv(store)
    ensures Pushed(store, op) == Posted(store, op)
  {
    if op.PostMessage? {
      FakeStore.PostsIff(store, op.auth, op.channelID, op.content, op.id);
    }
  }

  // Told from the requests, identify messages and connections alone, without looking at a queue.
  ghost function Due(store: FakeStore.Store, l: Listener, steps: seq<Step>, id: nat): seq<Message>
    decreases |steps|
  {
    if steps == [] || (steps[0].Request? && !FakeStore.Possible(store, steps[0].op)) then []
    else
      DueNow(store, l, steps[0])
      + Due(if steps[0].Request? then FakeStore.Serve(store, steps[0].op) else store,
            After(store, l, steps[0], id), steps[1..], id)
  }

  function ListenerOf(s: Sys, id: nat): Listener {
    if id in s.conns then Listener(s.conns[id].q.authUser, s.conns[id].registered) else Listener(None, false)
  }

  function StreamOf(s: Sys, id: nat): seq<Message> {
    if id in s.conns then FakeQueue.Stream(s.conns[id]) else []
  }

  // ---------- Invariants ----------

  ghost predicate ConnOk(c: FakeQueue.Conn) {
    FakeQueue.WakeInv(c) && FakeQueue.RepliesOk(c) && FakeQueue.WireInv(c)
  }

  ghost predicate Inv(s: Sys) {
    FakeStore.Inv(s.store) && forall id :: id in s.conns ==> ConnOk(s.conns[id])
  }

  lemma ConnStep(c: FakeQueue.Conn, step: FakeQueue.Step)
    requires ConnOk(c) && FakeQueue.Enabled(c, step)
    ensures ConnOk(FakeQueue.Do(c, step))
    ensures FakeQueue.Stream(FakeQueue.Do(c, step)) == FakeQueue.Stream(c) + FakeQueue.DueNow(c, step)
  {
    FakeQueue.WakeStep(c, step);
    FakeQueue.WireStep(c, step);
    FakeQueue.StreamStep(c, step);
  }

  lemma NewConnOk()
    ensures ConnOk(FakeQueue.NEW_CONN) && FakeQueue.Stream(FakeQueue.NEW_CONN) == []
  {
  }

  lemma StepInv(s: Sys, step: Step)
    requires Inv(s) && Enabled(s, step)
    ensures Inv(Do(s, step))
  {
    match step
    case Request(op) =>
      FakeStore.ServeKeeps(s.store, op);
      if Pushed(s.store, op).Some? {
        forall id | id in s.conns
          ensures ConnOk(Do(s, step).conns[id])
        {
          ConnStep(s.conns[id], FakeQueue.Post(Pushed(s.store, op).value, Recipients(s.store, op)));
        }
      }
    case Connect(_) => NewConnOk();
    case Identify(id, token) => ConnStep(s.conns[id], FakeQueue.Identify(FakeStore.TokenUser(s.store, token)));
    case Local(id, own) => ConnStep(s.conns[id], own);
  }

  // ---------- Streams ----------

  // What one step adds to the stream of a connection, and how it changes its listener.
  ghost predicate Follows(s: Sys, step: Step, id: nat)
    requires Enabled(s, step)
  {
    && StreamOf(Do(s, step), id) == StreamOf(s, id) + DueNow(s.store, ListenerOf(s, id), step)
    && ListenerOf(Do(s, step), id) == After(s.store, ListenerOf(s, id), step, id)
  }

  lemma RequestStream(s: Sys, op: FakeStore.Op, id: nat)
    requires Inv(s) && Enabled(s, Request(op))
    ensures Follows(s, Request(op), id)
  {
    PushedIsPosted(s.store, op);
    if Pushed(s.store, op).Some? && id in s.conns {
      var post := FakeQueue.Post(Pushed(s.store, op).value, Recipients(s.store, op));
      ConnStep(s.conns[id], post);
      assert Do(s, Request(op)).conns[id] == FakeQueue.Do(s.conns[id], post);
    }
  }

  lemma IdentifyStream(s: Sys, n: nat, token: string, id: nat)
    requires Inv(s) && Enabled(s, Identify(n, token))
    ensures Follows(s, Identify(n, token), id)
  {
    ConnStep(s.conns[n], FakeQueue.Identify(FakeStore.TokenUser(s.store, token)));
  }

  // A connection's own steps accept no event and leave its user alone.
  lemma OwnStep(c: FakeQueue.Conn, own: FakeQueue.Step)
    requires ConnOk(c) && FakeQueue.Enabled(c, own) && !own.Post? && !own.Identify?
    ensures var d := FakeQueue.Do(c, own);
            && FakeQueue.Stream(d) == FakeQueue.Stream(c)
            && d.q.authUser == c.q.authUser
            && d.registered == (c.registered && !own.Unregister?)
  {
    ConnStep(c, own);
    assert FakeQueue.DueNow(c, own) == [];
  }

  lemma LocalStream(s: Sys, n: nat, own: FakeQueue.Step, id: nat)
    requires Inv(s) && Enabled(s, Local(n, own))
    ensures Follows(s, Local(n, own), id)
  {
    OwnStep(s.conns[n], own);
    var t := Do(s, Local(n, own));
    assert DueNow(s.store, ListenerOf(s, id), Local(n, own)) == [];
    assert id != n ==> ListenerOf(t, id) == ListenerOf(s, id) && StreamOf(t, id) == StreamOf(s, id);
  }

  lemma StreamStep(s: Sys, step: Step, id: nat)
    requires Inv(s) && Enabled(s, step)
    ensures Follows(s, step, id)
  {
    match step
    case Request(op) => RequestStream(s, op, id);
    case Connect(_) => NewConnOk();
    case Identify(n, token) => IdentifyStream(s, n, token, id);
    case Local(n, own) => LocalStream(s, n, own, id);
  }

  lemma DueFirst(s: Sys, l: Listener, steps: seq<Step>, u: Sys, id: nat)
    requires steps != [] && Enabled(s, steps[0]) && u == Do(s, steps[0])
    ensures Due(s.store, l, steps, id) ==
              DueNow(s.store, l, steps[0]) + Due(u.store, After(s.store, l, steps[0], id), steps[1..], id)
  {
  }

  lemma Regroup(a: seq<Message>, b: seq<Message>, c: seq<Message>)
    ensures a + b + c == a + (b + c)
  {
  }

  lemma StreamFirst(s: Sys, steps: seq<Step>, u: Sys, id: nat)
    requires Inv(s) && steps != [] && Enabled(s, steps[0]) && u == Do(s, steps[0])
    ensures StreamOf(u, id) + Due(u.store, ListenerOf(u, id), steps[1..], id)
            == StreamOf(s, id) + Due(s.store, ListenerOf(s, id), steps, id)
  {
    var l := ListenerOf(s, id);
    StreamStep(s, steps[0], id);
    DueFirst(s, l, steps, u, id);
    Regroup(StreamOf(s, id), DueNow(s.store, l, steps[0]), Due(u.store, ListenerOf(u, id), steps[1..], id));
  }

  // In every run, each connection has been handed, holds or has queued exactly the messages that
  // were posted to the channels of the user it had identified as by then, in order.
  lemma {:induction false} StreamIsPushed(s: Sys, steps: seq<Step>, t: Sys, id: nat)
    requires Inv(s) && Run(s, steps, t)
    ensures Inv(t)
    ensures StreamOf(t, id) == StreamOf(s, id) + Due(s.store, ListenerOf(s, id), steps, id)
    decreases |steps|
  {
    if steps != [] {
      var u := Do(s, steps[0]);
      StepInv(s, steps[0]);
      StreamIsPushed(u, steps[1..], t, id);
      StreamFirst(s, steps, u, id);
    }
  }

  // The messages are in the store and were not there before.
  ghost predicate NewIn(due: seq<Message>, before: FakeStore.Store, after: FakeStore.Store) {
    && (forall m :: m in due ==> m.id !in before.messages && m.id in after.messages && after.messages[m.id] == m)
    && forall i, j :: 0 <= i < j < |due| ==> due[i].id != due[j].id
  }

  lemma NewAppend(first: seq<Message>, rest: seq<Message>, a: FakeStore.Store, b: FakeStore.Store, c: FakeStore.Store)
    requires NewIn(first, a, b) && NewIn(rest, b, c) && FakeStore.Keeps(a, b) && FakeStore.Keeps(b, c)
    ensures NewIn(first + rest, a, c)
  {
    var all := first + rest;
    forall i, j | 0 <= i < j < |all|
      ensures all[i].id != all[j].id
    {
      if i < |first| <= j {
        assert all[i] in first && all[j] in rest;
      }
    }
  }

  lemma RequestIsNew(store: FakeStore.Store, l: Listener, op: FakeStore.Op)
    requires FakeStore.Inv(store) && FakeStore.Possible(store, op)
    ensures NewIn(DueNow(store, l, Request(op)), store, FakeStore.Serve(store, op))
  {
    PushedIsPosted(store, op);
    if Pushed(store, op).Some? {
      var m := Pushed(store, op).value;
      assert m.id == op.id && FakeStore.Serve(store, op).messages == store.messages[op.id := m];
    }
  }

  lemma PostIsNew(s: Sys, l: Listener, step: Step)
    requires Inv(s) && Enabled(s, step)
    ensures NewIn(DueNow(s.store, l, step), s.store, Do(s, step).store)
    ensures FakeStore.Keeps(s.store, Do(s, step).store)
  {
    if step.Request? {
      FakeStore.ServeKeeps(s.store, step.op);
      RequestIsNew(s.store, l, step.op);
    }
  }

  lemma {:induction false} DueIsNew(s: Sys, l: Listener, steps: seq<Step>, t: Sys, id: nat)
    requires Inv(s) && Run(s, steps, t)
    ensures NewIn(Due(s.store, l, steps, id), s.store, t.store) && FakeStore.Keeps(s.store, t.store)
    decreases |steps|
  {
    if steps != [] {
      var u := Do(s, steps[0]);
      var l' := After(s.store, l, steps[0], id);
      StepInv(s, steps[0]);
      PostIsNew(s, l, steps[0]);
      DueIsNew(u, l', steps[1..], t, id);
      NewAppend(DueNow(s.store, l, steps[0]), Due(u.store, l', steps[1..], id), s.store, u.store, t.store);
      FakeStore.KeepsTrans(s.store, u.store, t.store);
    }
  }

  // From the start of the server: what a client was sent is a prefix of what it is due, which is
  // each message posted to its user's channels while it was registered, once, in order.
  lemma EventsArePosts(steps: seq<Step>, t: Sys, id: nat)
    requires Run(EMPTY_SYS, steps, t) && id in t.conns
    ensures var due := Due(FakeStore.EMPTY_STORE, Listener(None, false), steps, id);
            && FakeQueue.Stream(t.conns[id]) == due
            && FakeQueue.EventsOf(t.conns[id].wire) <= due
            && (forall m :: m in due ==> m.id in t.store.messages && t.store.messages[m.id] == m)
            && forall i, j :: 0 <= i < j < |due| ==> due[i].id != due[j].id
  {
    StreamIsPushed(EMPTY_SYS, steps, t, id);
    DueIsNew(EMPTY_SYS, Listener(None, false), steps, t, id);
    FakeQueue.EventsPrefix(t.conns[id].wire, t.conns[id].outbound);
  }
}
