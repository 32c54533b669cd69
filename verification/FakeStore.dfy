// The fake server's users, channels, messages and reactions.
module FakeStore {
  import opened Protocol

  // A user is known by the identity of its allocation, which `serial` stands for.
  datatype User = User(serial: nat, id: string, username: string, bot: bool)

  datatype Channel = Channel(id: string, recipients: seq<User>)

  datatype Message = Message(id: string, channelID: string, author: User, content: string)

  datatype Auth = BotAuth(token: string) | BearerAuth(token: string)

  type Reactions = map<string, map<string, set<User>>>

  // `reacted` is history: every successful reaction so far.
  datatype Store = Store(
    serial: nat,
    auths: map<Auth, User>,
    users: map<string, User>,
    channels: map<string, Channel>,
    messages: map<string, Message>,
    reactions: Reactions,
    reacted: set<(string, string, User)>)

  const EMPTY_STORE := Store(0, map[], map[], map[], map[], map[], {})

  datatype Failure =
    | Malformed            // 500, Discord code 0
    | BadRequest           // 400, Discord code 0
    | Unauthorized         // 401, Discord code 40001
    | UnknownUser          // 400, Discord code 10013
    | UnknownChannel(status: int) // Discord code 10003
    | UnknownMessage       // 404, Discord code 10008
    | EmptyMessage         // 400, Discord code 50006

  datatype Result<+T> = Ok(value: T) | Err(failure: Failure)

  // Go visits a map in any order; an order lists each key once.
  ghost predicate Orders<V>(order: seq<string>, m: map<string, V>) {
    && (forall k :: k in order <==> k in m)
    && forall i, j :: 0 <= i < j < |order| ==> order[i] != order[j]
  }

  predicate HasRecipient(c: Channel, u: User) {
    u in c.recipients
  }

  // ---------- Registration ----------

  function RegisterUser(s: Store, username: string, bot: bool, id: string, token: string): Store {
    var u := User(s.serial, id, username, bot);
    s.(serial := s.serial + 1,
       users := s.users[id := u],
       auths := s.auths[(if bot then BotAuth(token) else BearerAuth(token)) := u])
  }

  // The user that a gateway's token belongs to, a bot's before a user's.
  function TokenUser(s: Store, token: string): Option<User> {
    if BotAuth(token) in s.auths then Some(s.auths[BotAuth(token)])
    else if BearerAuth(token) in s.auths then Some(s.auths[BearerAuth(token)])
    else None
  }

  // ---------- Direct-message channels ----------

  predicate Serves(c: Channel, a: User, b: User) {
    |c.recipients| == 2 && HasRecipient(c, a) && HasRecipient(c, b)
  }

  // The first channel in the order that serves both users.
  function FindChannel(channels: map<string, Channel>, order: seq<string>, a: User, b: User): Option<Channel>
    requires forall k :: k in order ==> k in channels
  {
    if order == [] then None
    else if Serves(channels[order[0]], a, b) then Some(channels[order[0]])
    else FindChannel(channels, order[1..], a, b)
  }

  function CreateUserChannel(s: Store, auth: Auth, recipientID: Option<string>, order: seq<string>, id: string)
    : (Store, Result<Channel>)
    requires Orders(order, s.channels)
  {
    if recipientID.None? then (s, Err(Malformed))
    else if recipientID.value == "" then (s, Err(BadRequest))
    else if auth !in s.auths then (s, Err(Unauthorized))
    else if recipientID.value !in s.users then (s, Err(UnknownUser))
    else
      var a, b := s.auths[auth], s.users[recipientID.value];
      match FindChannel(s.channels, order, a, b)
      case Some(c) => (s, Ok(c))
      case None =>
        var c := Channel(id, [a, b]);
        (s.(channels := s.channels[id := c]), Ok(c))
  }

  // ---------- Messages and reactions ----------

  function CreateMessage(s: Store, auth: Auth, channelID: string, content: Option<string>, id: string)
    : (Store, Result<Message>)
  {
    if content.None? then (s, Err(BadRequest))
    else if content.value == "" then (s, Err(EmptyMessage))
    else if auth !in s.auths then (s, Err(Unauthorized))
    else if channelID !in s.channels || !HasRecipient(s.channels[channelID], s.auths[auth]) then
      (s, Err(UnknownChannel(400)))
    else
      var m := Message(id, s.channels[channelID].id, s.auths[auth], content.value);
      (s.(messages := s.messages[id := m]), Ok(m))
  }

  // The message, if the user may see it.
  function Lookup(s: Store, auth: Auth, channelID: string, messageID: string): Result<Message> {
    if auth !in s.auths then Err(Unauthorized)
    else if channelID !in s.channels || !HasRecipient(s.channels[channelID], s.auths[auth]) then
      Err(UnknownChannel(404))
    else if messageID !in s.messages || s.messages[messageID].channelID != channelID then Err(UnknownMessage)
    else Ok(s.messages[messageID])
  }

  function Reactors(r: Reactions, messageID: string, emoji: string): set<User> {
    if messageID in r && emoji in r[messageID] then r[messageID][emoji] else {}
  }

  function React(r: Reactions, messageID: string, emoji: string, u: User): Reactions {
    var forMessage := if messageID in r then r[messageID] else map[];
    r[messageID := forMessage[emoji := Reactors(r, messageID, emoji) + {u}]]
  }

  function CreateReaction(s: Store, auth: Auth, channelID: string, messageID: string, emoji: string): (Store, Result<()>) {
    match Lookup(s, auth, channelID, messageID)
    case Err(f) => (s, Err(f))
    case Ok(_) =>
      var u := s.auths[auth];
      (s.(reactions := React(s.reactions, messageID, emoji, u), reacted := s.reacted + {(messageID, emoji, u)}), Ok(()))
  }

  datatype Reaction = Reaction(emoji: string, count: nat, me: bool)

  datatype Formatted = Formatted(message: Message, reactions: seq<Reaction>)

  function EmojisOf(r: Reactions, messageID: string): map<string, set<User>> {
    if messageID in r then r[messageID] else map[]
  }

  function FormatFor(s: Store, u: User, m: Message, order: seq<string>): Formatted
    requires Orders(order, EmojisOf(s.reactions, m.id))
  {
    Formatted(m, seq(|order|, i requires 0 <= i < |order| =>
      Reaction(order[i], |Reactors(s.reactions, m.id, order[i])|, u in Reactors(s.reactions, m.id, order[i]))))
  }

  // ---------- Integrity ----------

  ghost predicate ChannelsOk(s: Store) {
    forall k :: k in s.channels ==> s.channels[k].id == k && |s.channels[k].recipients| == 2
  }

  function Members(c: Channel): set<User> {
    set u | u in c.recipients
  }

  // No two channels have the same set of recipients.
  ghost predicate NoTwins(s: Store) {
    forall k, l :: k in s.channels && l in s.channels && Members(s.channels[k]) == Members(s.channels[l]) ==> k == l
  }

  ghost predicate MessagesOk(s: Store) {
    forall k :: k in s.messages ==>
      && s.messages[k].id == k
      && s.messages[k].channelID in s.channels
      && HasRecipient(s.channels[s.messages[k].channelID], s.messages[k].author)
  }

  // The stored reactions are exactly the successful ones.
  ghost predicate ReactionsExact(s: Store) {
    && (forall m, e, u :: (m, e, u) in s.reacted <==> u in Reactors(s.reactions, m, e))
    && (forall m, e :: m in s.reactions && e in s.reactions[m] ==> s.reactions[m][e] != {})
  }

  // Only recipients of an existing message's channel have reacted to it.
  ghost predicate ReactorsOk(s: Store) {
    && (forall m :: m in s.reactions ==> m in s.messages)
    && forall m, e, u :: (m, e, u) in s.reacted ==>
         && m in s.messages && s.messages[m].channelID in s.channels
         && HasRecipient(s.channels[s.messages[m].channelID], u)
  }

  ghost predicate Inv(s: Store) {
    ChannelsOk(s) && NoTwins(s) && MessagesOk(s) && ReactionsExact(s) && ReactorsOk(s)
  }

  // Channels and messages, once there, stay as they are.
  ghost predicate Keeps(s: Store, t: Store) {
    && (forall k :: k in s.channels ==> k in t.channels && t.channels[k] == s.channels[k])
    && (forall k :: k in s.messages ==> k in t.messages && t.messages[k] == s.messages[k])
    && s.reacted <= t.reacted
  }

  // ---------- Finding channels ----------

  lemma {:induction false} FindOk(channels: map<string, Channel>, order: seq<string>, a: User, b: User)
    requires forall k :: k in order ==> k in channels
    ensures match FindChannel(channels, order, a, b)
            case Some(c) => exists k :: k in order && channels[k] == c && Serves(c, a, b)
            case None => forall k :: k in order ==> !Serves(channels[k], a, b)
    decreases |order|
  {
    if order != [] {
      assert order[0] in order;
      if !Serves(channels[order[0]], a, b) {
        FindOk(channels, order[1..], a, b);
        var r := FindChannel(channels, order[1..], a, b);
        if r.Some? {
          var k :| k in order[1..] && channels[k] == r.value;
          assert k in order;
        }
      }
    }
  }

  lemma TwoMembers(c: Channel, a: User, b: User)
    requires a != b && Serves(c, a, b)
    ensures Members(c) == {a, b}
  {
    assert c.recipients[0] in c.recipients && c.recipients[1] in c.recipients;
    assert forall u :: u in c.recipients <==> u == c.recipients[0] || u == c.recipients[1];
  }

  // For two distinct users at most one channel serves both, whichever of them asks.
  lemma OneChannel(s: Store, k: string, l: string, a: User, b: User)
    requires Inv(s) && a != b && k in s.channels && l in s.channels
    requires Serves(s.channels[k], a, b) && Serves(s.channels[l], b, a)
    ensures k == l
  {
    TwoMembers(s.channels[k], a, b);
    TwoMembers(s.channels[l], b, a);
  }

  // The answer does not depend on the order in which the map is visited, nor on who asks.
  lemma DirectMessageIsUnique(s: Store, order1: seq<string>, order2: seq<string>, a: User, b: User)
    requires Inv(s) && a != b && Orders(order1, s.channels) && Orders(order2, s.channels)
    ensures FindChannel(s.channels, order1, a, b) == FindChannel(s.channels, order2, b, a)
  {
    FindOk(s.channels, order1, a, b);
    FindOk(s.channels, order2, b, a);
    var r1, r2 := FindChannel(s.channels, order1, a, b), FindChannel(s.channels, order2, b, a);
    if r1.Some? && r2.Some? {
      var k :| k in order1 && s.channels[k] == r1.value;
      var l :| l in order2 && s.channels[l] == r2.value;
      OneChannel(s, k, l, a, b);
    }
  }

  ghost predicate AtMostOne(s: Store, a: User, b: User) {
    forall k, l :: k in s.channels && l in s.channels && Serves(s.channels[k], a, b) && Serves(s.channels[l], a, b)
      ==> k == l
  }

  ghost predicate OrderFree(s: Store, a: User, b: User) {
    forall o1, o2 :: Orders(o1, s.channels) && Orders(o2, s.channels) ==>
      FindChannel(s.channels, o1, a, b) == FindChannel(s.channels, o2, a, b)
  }

  lemma {:induction false} Enumerate(m: map<string, Channel>, ks: set<string>) returns (order: seq<string>)
    requires ks <= m.Keys
    ensures (forall k :: k in order <==> k in ks)
    ensures forall i, j :: 0 <= i < j < |order| ==> order[i] != order[j]
    decreases |ks|
  {
    order := [];
    if ks != {} {
      var k :| k in ks;
      var rest := Enumerate(m, ks - {k});
      order := [k] + rest;
    }
  }

  lemma OrderFrom(m: map<string, Channel>, k: string) returns (order: seq<string>)
    requires k in m
    ensures Orders(order, m) && order != [] && order[0] == k
  {
    var rest := Enumerate(m, m.Keys - {k});
    order := [k] + rest;
  }

  // In general, for a user who asks for a channel with themselves included, the answer is
  // independent of the order exactly when at most one channel fits.
  lemma OrderFreeIff(s: Store, a: User, b: User)
    requires Inv(s)
    ensures OrderFree(s, a, b) <==> AtMostOne(s, a, b)
  {
    if AtMostOne(s, a, b) {
      forall o1, o2 | Orders(o1, s.channels) && Orders(o2, s.channels)
        ensures FindChannel(s.channels, o1, a, b) == FindChannel(s.channels, o2, a, b)
      {
        FindOk(s.channels, o1, a, b);
        FindOk(s.channels, o2, a, b);
      }
    } else {
      var k, l :| k in s.channels && l in s.channels && Serves(s.channels[k], a, b)
                  && Serves(s.channels[l], a, b) && k != l;
      var o1 := OrderFrom(s.channels, k);
      var o2 := OrderFrom(s.channels, l);
      assert FindChannel(s.channels, o1, a, b) == Some(s.channels[k]);
      assert FindChannel(s.channels, o2, a, b) == Some(s.channels[l]);
      assert s.channels[k].id != s.channels[l].id;
    }
  }

  // ---------- What every operation keeps ----------

  lemma RegisterKeeps(s: Store, username: string, bot: bool, id: string, token: string)
    requires Inv(s)
    ensures Inv(RegisterUser(s, username, bot, id, token)) && Keeps(s, RegisterUser(s, username, bot, id, token))
  {
  }

  lemma AddChannel(s: Store, c: Channel, a: User, b: User)
    requires Inv(s) && c.id !in s.channels && c.recipients == [a, b]
    requires forall k :: k in s.channels ==> !Serves(s.channels[k], a, b)
    ensures Inv(s.(channels := s.channels[c.id := c]))
  {
    assert Members(c) == {a, b};
    forall k | k in s.channels
      ensures Members(s.channels[k]) != {a, b}
    {
      if Members(s.channels[k]) == {a, b} {
        assert a in Members(s.channels[k]) && b in Members(s.channels[k]);
        assert Serves(s.channels[k], a, b);
      }
    }
  }

  lemma CreateUserChannelKeeps(s: Store, auth: Auth, recipientID: Option<string>, order: seq<string>, id: string)
    requires Inv(s) && Orders(order, s.channels) && id !in s.channels
    ensures var (t, r) := CreateUserChannel(s, auth, recipientID, order, id);
            && Inv(t) && Keeps(s, t)
            && (r.Ok? ==>
                  && r.value.id in t.channels && t.channels[r.value.id] == r.value
                  && Serves(r.value, s.auths[auth], s.users[recipientID.value]))
  {
    var (t, r) := CreateUserChannel(s, auth, recipientID, order, id);
    if r.Ok? {
      var a, b := s.auths[auth], s.users[recipientID.value];
      FindOk(s.channels, order, a, b);
      if FindChannel(s.channels, order, a, b).None? {
        AddChannel(s, r.value, a, b);
      }
    }
  }

  lemma AddMessage(s: Store, m: Message)
    requires MessagesOk(s) && ReactorsOk(s) && m.id !in s.messages
    requires m.channelID in s.channels && HasRecipient(s.channels[m.channelID], m.author)
    ensures var t := s.(messages := s.messages[m.id := m]); MessagesOk(t) && ReactorsOk(t)
  {
  }

  lemma CreateMessageKeeps(s: Store, auth: Auth, channelID: string, content: Option<string>, id: string)
    requires Inv(s) && id !in s.messages
    ensures var (t, r) := CreateMessage(s, auth, channelID, content, id);
            && Inv(t) && Keeps(s, t)
            && (r.Ok? ==>
                  && id in t.messages && t.messages[id] == r.value
                  && r.value == Message(id, channelID, s.auths[auth], content.value))
  {
    var (t, r) := CreateMessage(s, auth, channelID, content, id);
    if r.Ok? {
      AddMessage(s, r.value);
      assert t.reactions == s.reactions && t.reacted == s.reacted && t.channels == s.channels;
    }
  }

  lemma ReactAdds(r: Reactions, messageID: string, emoji: string, u: User, m: string, e: string)
    ensures Reactors(React(r, messageID, emoji, u), m, e)
            == Reactors(r, m, e) + if m == messageID && e == emoji then {u} else {}
  {
  }

  lemma ReactExact(s: Store, messageID: string, emoji: string, u: User)
    requires ReactionsExact(s)
    ensures ReactionsExact(s.(reactions := React(s.reactions, messageID, emoji, u),
                              reacted := s.reacted + {(messageID, emoji, u)}))
  {
    var t := s.(reactions := React(s.reactions, messageID, emoji, u), reacted := s.reacted + {(messageID, emoji, u)});
    forall m, e, v
      ensures (m, e, v) in t.reacted <==> v in Reactors(t.reactions, m, e)
    {
      ReactAdds(s.reactions, messageID, emoji, u, m, e);
    }
    forall m, e | m in t.reactions && e in t.reactions[m]
      ensures t.reactions[m][e] != {}
    {
      assert u in Reactors(s.reactions, messageID, emoji) + {u};
    }
  }

  lemma CreateReactionKeeps(s: Store, auth: Auth, channelID: string, messageID: string, emoji: string)
    requires Inv(s)
    ensures var (t, r) := CreateReaction(s, auth, channelID, messageID, emoji);
            Inv(t) && Keeps(s, t) && (r.Ok? ==> (messageID, emoji, s.auths[auth]) in t.reacted)
  {
    var (t, r) := CreateReaction(s, auth, channelID, messageID, emoji);
    if r.Ok? {
      ReactExact(s, messageID, emoji, s.auths[auth]);
      assert ReactorsOk(t);
    }
  }

  // ---------- When a request succeeds ----------

  // A user who may see a channel: the credential is known, and the channel lists its user.
  predicate Sees(s: Store, auth: Auth, channelID: string) {
    auth in s.auths && channelID in s.channels && s.auths[auth] in s.channels[channelID].recipients
  }

  // Any recipient may post anything that is not empty.
  predicate CanPost(s: Store, auth: Auth, channelID: string, content: Option<string>) {
    content.Some? && content.value != "" && Sees(s, auth, channelID)
  }

  predicate CanRead(s: Store, auth: Auth, channelID: string, messageID: string) {
    Sees(s, auth, channelID) && messageID in s.messages && s.messages[messageID].channelID == channelID
  }

  // A post succeeds if and only if it may be made; otherwise nothing changes, and the error says what
  // was wrong first.
  lemma PostsIff(s: Store, auth: Auth, channelID: string, content: Option<string>, id: string)
    requires Inv(s)
    ensures var (t, r) := CreateMessage(s, auth, channelID, content, id);
            && (r.Ok? <==> CanPost(s, auth, channelID, content))
            && (r.Ok? ==> r.value == Message(id, channelID, s.auths[auth], content.value))
            && (r.Err? ==> t == s)
            && (content.None? ==> r == Err(BadRequest))
            && (content == Some("") ==> r == Err(EmptyMessage))
            && (content.Some? && content.value != "" && auth !in s.auths ==> r == Err(Unauthorized))
            && (content.Some? && content.value != "" && auth in s.auths && !Sees(s, auth, channelID) ==>
                  r == Err(UnknownChannel(400)))
  {
  }

  // A direct-message channel is given if and only if a known user asks for one with a known user.
  lemma OpensIff(s: Store, auth: Auth, recipientID: Option<string>, order: seq<string>, id: string)
    requires Orders(order, s.channels)
    ensures var (t, r) := CreateUserChannel(s, auth, recipientID, order, id);
            && (r.Ok? <==>
                  recipientID.Some? && recipientID.value != "" && auth in s.auths && recipientID.value in s.users)
            && (r.Err? ==> t == s)
            && (recipientID.None? ==> r == Err(Malformed))
            && (recipientID == Some("") ==> r == Err(BadRequest))
            && (recipientID.Some? && recipientID.value != "" && auth !in s.auths ==> r == Err(Unauthorized))
            && (recipientID.Some? && recipientID.value != "" && auth in s.auths && recipientID.value !in s.users ==>
                  r == Err(UnknownUser))
  {
  }

  // A message can be read, and reacted to, if and only if it is in a channel of the user's.
  lemma ReadsIff(s: Store, auth: Auth, channelID: string, messageID: string, emoji: string)
    ensures var r := Lookup(s, auth, channelID, messageID);
            && (r.Ok? <==> CanRead(s, auth, channelID, messageID))
            && (r.Ok? ==> r.value == s.messages[messageID])
            && (auth !in s.auths ==> r == Err(Unauthorized))
            && (auth in s.auths && !Sees(s, auth, channelID) ==> r == Err(UnknownChannel(404)))
            && (Sees(s, auth, channelID) && r.Err? ==> r == Err(UnknownMessage))
    ensures var (t, r) := CreateReaction(s, auth, channelID, messageID, emoji);
            && (r.Ok? <==> CanRead(s, auth, channelID, messageID))
            && (if r.Ok? then t.reacted == s.reacted + {(messageID, emoji, s.auths[auth])} else t == s)
  {
  }

  // A gateway's token names a user exactly when it is a bot's or another user's.
  lemma TokensIff(s: Store, token: string)
    ensures TokenUser(s, token).Some? <==> BotAuth(token) in s.auths || BearerAuth(token) in s.auths
    ensures BotAuth(token) in s.auths ==> TokenUser(s, token) == Some(s.auths[BotAuth(token)])
    ensures BotAuth(token) !in s.auths && BearerAuth(token) in s.auths ==>
              TokenUser(s, token) == Some(s.auths[BearerAuth(token)])
  {
  }

  // A user registered is known by ID, by credential and, on a gateway, by token: a bot always, any
  // other user unless a bot has the same token. Nobody else is affected.
  lemma RegistersUser(s: Store, username: string, bot: bool, id: string, token: string)
    ensures var t := RegisterUser(s, username, bot, id, token);
            var auth := if bot then BotAuth(token) else BearerAuth(token);
            && auth in t.auths && id in t.users && t.users[id] == t.auths[auth]
            && t.auths[auth].id == id && t.auths[auth].username == username && t.auths[auth].bot == bot
            && (bot || BotAuth(token) !in s.auths ==> TokenUser(t, token) == Some(t.auths[auth]))
            && (forall a :: a != auth ==> (a in t.auths <==> a in s.auths) && (a in s.auths ==> t.auths[a] == s.auths[a]))
            && (forall k :: k != id ==> (k in t.users <==> k in s.users) && (k in s.users ==> t.users[k] == s.users[k]))
            && t.channels == s.channels && t.messages == s.messages && t.reactions == s.reactions
  {
  }

  // ---------- Runs ----------

  // A request to the server, with the ID it would generate and the order its map loop takes.
  datatype Op =
    | Register(username: string, bot: bool, id: string, token: string)
    | OpenChannel(auth: Auth, recipientID: Option<string>, order: seq<string>, id: string)
    | PostMessage(auth: Auth, channelID: string, content: Option<string>, id: string)
    | PutReaction(auth: Auth, channelID: string, messageID: string, emoji: string)

  // The generated ID is new and the order is one that the map loop could take.
  ghost predicate Possible(s: Store, op: Op) {
    match op
    case Register(_, _, _, _) => true
    case OpenChannel(_, _, order, id) => Orders(order, s.channels) && id !in s.channels
    case PostMessage(_, _, _, id) => id !in s.messages
    case PutReaction(_, _, _, _) => true
  }

  function Serve(s: Store, op: Op): Store
    requires Possible(s, op)
  {
    match op
    case Register(username, bot, id, token) => RegisterUser(s, username, bot, id, token)
    case OpenChannel(auth, recipientID, order, id) => CreateUserChannel(s, auth, recipientID, order, id).0
    case PostMessage(auth, channelID, content, id) => CreateMessage(s, auth, channelID, content, id).0
    case PutReaction(auth, channelID, messageID, emoji) => CreateReaction(s, auth, channelID, messageID, emoji).0
  }

  ghost predicate Run(s: Store, ops: seq<Op>, t: Store)
    decreases |ops|
  {
    if ops == [] then s == t
    else Possible(s, ops[0]) && Run(Serve(s, ops[0]), ops[1..], t)
  }

  lemma ServeKeeps(s: Store, op: Op)
    requires Inv(s) && Possible(s, op)
    ensures Inv(Serve(s, op)) && Keeps(s, Serve(s, op))
  {
    match op
    case Register(username, bot, id, token) => RegisterKeeps(s, username, bot, id, token);
    case OpenChannel(auth, recipientID, order, id) => CreateUserChannelKeeps(s, auth, recipientID, order, id);
    case PostMessage(auth, channelID, content, id) => CreateMessageKeeps(s, auth, channelID, content, id);
    case PutReaction(auth, channelID, messageID, emoji) => CreateReactionKeeps(s, auth, channelID, messageID, emoji);
  }

  lemma KeepsTrans(s: Store, t: Store, u: Store)
    requires Keeps(s, t) && Keeps(t, u)
    ensures Keeps(s, u)
  {
  }

  // Over every run the store stays whole, and channels, messages and reactions stay put.
  lemma {:induction false} RunKeeps(s: Store, ops: seq<Op>, t: Store)
    requires Inv(s) && Run(s, ops, t)
    ensures Inv(t) && Keeps(s, t)
    decreases |ops|
  {
    if ops != [] {
      var u := Serve(s, ops[0]);
      ServeKeeps(s, ops[0]);
      RunKeeps(u, ops[1..], t);
      KeepsTrans(s, u, t);
    }
  }

  lemma OpensFirst(s: Store, auth: Auth, id: string, channelID: string)
    requires auth in s.auths && id in s.users && id != "" && s.channels == map[]
    ensures var op := OpenChannel(auth, Some(id), [], channelID);
            Possible(s, op)
            && Serve(s, op) == s.(channels := map[channelID := Channel(channelID, [s.auths[auth], s.users[id]])])
  {
  }

  lemma OpensSecond(s: Store, auth: Auth, id: string, first: Channel, channelID: string)
    requires auth in s.auths && id in s.users && id != "" && s.channels == map[first.id := first]
    requires first.id != channelID && !HasRecipient(first, s.users[id])
    ensures var op := OpenChannel(auth, Some(id), [first.id], channelID);
            Possible(s, op)
            && Serve(s, op) == s.(channels := map[first.id := first,
                                                  channelID := Channel(channelID, [s.auths[auth], s.users[id]])])
  {
    var a, b := s.auths[auth], s.users[id];
    assert FindChannel(s.channels, [first.id], a, b) == FindChannel(s.channels, [], a, b) == None;
  }

  lemma GivenEither(s: Store, a: User, k: string, l: string)
    requires Inv(s) && k != l && k in s.channels && l in s.channels
    requires Serves(s.channels[k], a, a) && Serves(s.channels[l], a, a)
    ensures !OrderFree(s, a, a)
  {
    OrderFreeIff(s, a, a);
  }

  // A user with two direct-message channels who asks for one with themselves can be given either,
  // and a server comes to that: three users register, and the first opens a channel to each other.
  lemma SelfChannelDependsOnOrder() returns (ops: seq<Op>, s: Store, auth: Auth, a: User)
    ensures Run(EMPTY_STORE, ops, s) && auth in s.auths && s.auths[auth] == a
    ensures a.id in s.users && s.users[a.id] == a
    ensures !OrderFree(s, a, a)
  {
    auth := BotAuth("t1");
    a := User(0, "1", "a", true);
    ops := [Register("a", true, "1", "t1"), Register("b", true, "2", "t2"), Register("c", true, "3", "t3"),
            OpenChannel(auth, Some("2"), [], "4"), OpenChannel(auth, Some("3"), ["4"], "5")];
    var s1 := Serve(EMPTY_STORE, ops[0]);
    var s2 := Serve(s1, ops[1]);
    var s3 := Serve(s2, ops[2]);
    OpensFirst(s3, auth, "2", "4");
    var s4 := Serve(s3, ops[3]);
    OpensSecond(s4, auth, "3", s4.channels["4"], "5");
    s := Serve(s4, ops[4]);
    FiveRequests(EMPTY_STORE, s1, s2, s3, s4, s, ops);
    RunKeeps(EMPTY_STORE, ops, s);
    GivenEither(s, a, "4", "5");
  }

  lemma FiveRequests(s0: Store, s1: Store, s2: Store, s3: Store, s4: Store, s5: Store, ops: seq<Op>)
    requires |ops| == 5
    requires Possible(s0, ops[0]) && Serve(s0, ops[0]) == s1 && Possible(s1, ops[1]) && Serve(s1, ops[1]) == s2
    requires Possible(s2, ops[2]) && Serve(s2, ops[2]) == s3 && Possible(s3, ops[3]) && Serve(s3, ops[3]) == s4
    requires Possible(s4, ops[4]) && Serve(s4, ops[4]) == s5
    ensures Run(s0, ops, s5)
  {
    assert ops[1..][1..] == ops[2..] && ops[2..][1..] == ops[3..] && ops[3..][1..] == ops[4..] && ops[4..][1..] == [];
    assert Run(s4, ops[4..], s5);
    assert Run(s3, ops[3..], s5);
    assert Run(s2, ops[2..], s5);
  }

  // A channel that serves two distinct users is the one found for them ever after, whoever asks.
  lemma ServesForever(s: Store, c: Channel, a: User, b: User, ops: seq<Op>, t: Store, order: seq<string>)
    requires Inv(s) && a != b && c.id in s.channels && s.channels[c.id] == c && Serves(c, a, b)
    requires Run(s, ops, t) && Orders(order, t.channels)
    ensures FindChannel(t.channels, order, a, b) == FindChannel(t.channels, order, b, a) == Some(c)
  {
    RunKeeps(s, ops, t);
    FindOk(t.channels, order, a, b);
    DirectMessageIsUnique(t, order, order, a, b);
    assert c.id in order;
    var r := FindChannel(t.channels, order, a, b);
    var k :| k in order && t.channels[k] == r.value && Serves(t.channels[k], a, b);
    OneChannel(t, c.id, k, a, b);
  }

  // Get or create: the channel that a request for another user gives, found or newly made, is the
  // one that a request by either of the two for the other gives after any later requests, and such
  // a request changes nothing.
  lemma DirectMessageIsStable(s: Store, auth: Auth, rid: string, order: seq<string>, id: string,
                              ops: seq<Op>, t: Store,
                              auth2: Auth, rid2: string, order2: seq<string>, id2: string)
    requires Inv(s) && Orders(order, s.channels) && id !in s.channels
    requires CreateUserChannel(s, auth, Some(rid), order, id).1.Ok? && s.auths[auth] != s.users[rid]
    requires Run(CreateUserChannel(s, auth, Some(rid), order, id).0, ops, t)
    requires rid2 != "" && auth2 in t.auths && rid2 in t.users && Orders(order2, t.channels)
    requires (t.auths[auth2], t.users[rid2])
             in {(s.auths[auth], s.users[rid]), (s.users[rid], s.auths[auth])}
    ensures CreateUserChannel(t, auth2, Some(rid2), order2, id2)
            == (t, CreateUserChannel(s, auth, Some(rid), order, id).1)
  {
    var (u, r) := CreateUserChannel(s, auth, Some(rid), order, id);
    CreateUserChannelKeeps(s, auth, Some(rid), order, id);
    ServesForever(u, r.value, s.auths[auth], s.users[rid], ops, t, order2);
  }

  // ---------- Reading reactions ----------

  // The users who have ever reacted successfully.
  function EverReacted(s: Store, messageID: string, emoji: string): set<User> {
    set r | r in s.reacted && r.0 == messageID && r.1 == emoji :: r.2
  }

  // A formatted message lists each emoji that anyone ever used on it exactly once, with the number
  // of distinct users who did, at least one, and whether the viewer is among them.
  lemma FormatCounts(s: Store, u: User, m: Message, order: seq<string>)
    requires Inv(s) && Orders(order, EmojisOf(s.reactions, m.id))
    ensures var f := FormatFor(s, u, m, order);
            && f.message == m
            && (forall i :: 0 <= i < |f.reactions| ==>
                  && f.reactions[i].count == |EverReacted(s, m.id, f.reactions[i].emoji)| > 0
                  && (f.reactions[i].me <==> (m.id, f.reactions[i].emoji, u) in s.reacted))
            && (forall i, j :: 0 <= i < j < |f.reactions| ==> f.reactions[i].emoji != f.reactions[j].emoji)
            && (forall e, v :: (m.id, e, v) in s.reacted ==>
                  exists i :: 0 <= i < |f.reactions| && f.reactions[i].emoji == e)
  {
    var f := FormatFor(s, u, m, order);
    forall i | 0 <= i < |f.reactions|
      ensures f.reactions[i].count == |EverReacted(s, m.id, f.reactions[i].emoji)| > 0
    {
      var e := order[i];
      assert e in order;
      var us := Reactors(s.reactions, m.id, e);
      assert us == s.reactions[m.id][e] != {};
      assert EverReacted(s, m.id, e) == us by {
        forall v
          ensures v in us <==> v in EverReacted(s, m.id, e)
        {
          if v in us {
            assert (m.id, e, v) in s.reacted;
          }
        }
      }
      var v :| v in us;
      assert |us| > 0;
    }
    forall e, v | (m.id, e, v) in s.reacted
      ensures exists i :: 0 <= i < |f.reactions| && f.reactions[i].emoji == e
    {
      assert v in Reactors(s.reactions, m.id, e);
      assert e in order;
      var i :| 0 <= i < |order| && order[i] == e;
      assert f.reactions[i].emoji == e;
    }
  }
}
