// The fake server's request handlers, which update its maps in place under one lock and push
// message events to the connected gateways.
module FakeServer {
  import opened Protocol
  import opened FakeStore
  import FakeQueue

  class Server {
    var serial: nat
    var auths: map<Auth, User>
    var users: map<string, User>
    var channels: map<string, Channel>
    var messages: map<string, Message>
    var reactions: Reactions
    var gateways: set<FakeQueue.Gateway>
    ghost var reacted: set<(string, string, User)>

    ghost function View(): Store
      reads this
    {
      Store(serial, auths, users, channels, messages, reactions, reacted)
    }

    ghost predicate Valid()
      reads this, gateways
    {
      Inv(View()) && forall g :: g in gateways ==> FakeQueue.CloseOk(g.View())
    }

    constructor ()
      ensures View() == EMPTY_STORE && gateways == {} && Valid()
    {
      serial, auths, users, channels := 0, map[], map[], map[];
      messages, reactions, gateways, reacted := map[], map[], {}, {};
    }

    method RegisterGateway() returns (g: FakeQueue.Gateway)
      requires Valid()
      modifies this`gateways
      ensures Valid() && fresh(g) && gateways == old(gateways) + {g}
      ensures g.View() == FakeQueue.NEW_QUEUE
    {
      g := new FakeQueue.Gateway();
      gateways := gateways + {g};
    }

    method UnregisterGateway(g: FakeQueue.Gateway)
      requires Valid()
      modifies this`gateways
      ensures Valid() && gateways == old(gateways) - {g}
    {
      gateways := gateways - {g};
    }

    // A gateway identifies itself with a token, and an unknown one changes nothing.
    method Identify(g: FakeQueue.Gateway, token: string) returns (u: Option<User>)
      requires Valid() && g in gateways
      modifies g`authUser
      ensures Valid()
      ensures u == TokenUser(View(), token)
      ensures g.View() == if u.Some? then old(g.View()).(authUser := u) else old(g.View())
    {
      u := None;
      if BotAuth(token) in auths {
        u := Some(auths[BotAuth(token)]);
      } else if BearerAuth(token) in auths {
        u := Some(auths[BearerAuth(token)]);
      }
      if u.Some? {
        g.authUser := u;
      }
    }

    method LockedRegisterUser(username: string, bot: bool, id: string, token: string) returns (u: User)
      requires Valid()
      modifies this`serial, this`users, this`auths
      ensures Valid()
      ensures View() == RegisterUser(old(View()), username, bot, id, token)
      ensures u == User(old(serial), id, username, bot)
    {
      RegisterKeeps(View(), username, bot, id, token);
      u := User(serial, id, username, bot);
      serial := serial + 1;
      users := users[id := u];
      auths := auths[(if bot then BotAuth(token) else BearerAuth(token)) := u];
    }

    // `order` is the order in which the map loop visits the channels; `id` the ID generated.
    method CreateUserChannel(auth: Auth, recipientID: Option<string>, order: seq<string>, id: string)
      returns (r: Result<Channel>)
      requires Valid() && Orders(order, channels) && id !in channels
      modifies this`channels
      ensures Valid()
      ensures (View(), r) == FakeStore.CreateUserChannel(old(View()), auth, recipientID, order, id)
    {
      CreateUserChannelKeeps(View(), auth, recipientID, order, id);
      if recipientID.None? {
        return Err(Malformed);
      }
      if recipientID.value == "" {
        return Err(BadRequest);
      }
      if auth !in auths {
        return Err(Unauthorized);
      }
      if recipientID.value !in users {
        return Err(UnknownUser);
      }
      var authUser, recipientUser := auths[auth], users[recipientID.value];
      for i := 0 to |order|
        invariant FindChannel(channels, order[i..], authUser, recipientUser)
                  == FindChannel(channels, order, authUser, recipientUser)
      {
        var c := channels[order[i]];
        if |c.recipients| == 2 && HasRecipient(c, authUser) && HasRecipient(c, recipientUser) {
          return Ok(c);
        }
      }
      var c := Channel(id, [authUser, recipientUser]);
      channels := channels[id := c];
      return Ok(c);
    }

    // Each connected gateway whose user is among the recipients gets the event once, however often
    // the user is listed.
    method PushToRecipients(e: Message, recipients: seq<User>)
      requires forall g :: g in gateways ==> FakeQueue.CloseOk(g.View())
      modifies gateways
      ensures forall g :: g in gateways ==> FakeQueue.CloseOk(g.View())
      ensures forall g :: g in gateways ==>
                g.View() == if FakeQueue.Addressed(old(g.View()), recipients) then FakeQueue.Push(old(g.View()), e)
                            else old(g.View())
    {
      var rest := gateways;
      while rest != {}
        invariant rest <= gateways
        invariant forall g :: g in gateways ==> FakeQueue.CloseOk(g.View())
        invariant forall g :: g in rest ==> g.View() == old(g.View())
        invariant forall g :: g in gateways - rest ==>
                    g.View() == if FakeQueue.Addressed(old(g.View()), recipients) then FakeQueue.Push(old(g.View()), e)
                                else old(g.View())
        decreases rest
      {
        var g :| g in rest;
        rest := rest - {g};
        PushIfAddressed(g, e, recipients);
      }
    }

    method PushIfAddressed(g: FakeQueue.Gateway, e: Message, recipients: seq<User>)
      requires FakeQueue.CloseOk(g.View())
      modifies g
      ensures FakeQueue.CloseOk(g.View())
      ensures g.View() == if FakeQueue.Addressed(old(g.View()), recipients) then FakeQueue.Push(old(g.View()), e)
                          else old(g.View())
    {
      if g.authUser.None? {
        return;
      }
      for i := 0 to |recipients|
        invariant g.View() == old(g.View())
        invariant g.authUser.value !in recipients[..i]
      {
        if recipients[i] == g.authUser.value {
          g.LockedPush(e);
          return;
        }
      }
    }

    method CreateMessage(auth: Auth, channelID: string, content: Option<string>, id: string) returns (r: Result<Message>)
      requires Valid() && id !in messages
      modifies this`messages, gateways
      ensures Valid()
      ensures (View(), r) == FakeStore.CreateMessage(old(View()), auth, channelID, content, id)
      ensures r.Err? ==> forall g :: g in gateways ==> g.View() == old(g.View())
      ensures r.Ok? ==> channelID in channels && forall g :: g in gateways ==>
                g.View() == if FakeQueue.Addressed(old(g.View()), channels[channelID].recipients)
                            then FakeQueue.Push(old(g.View()), r.value) else old(g.View())
    {
      CreateMessageKeeps(View(), auth, channelID, content, id);
      if content.None? {
        return Err(BadRequest);
      }
      if content.value == "" {
        return Err(EmptyMessage);
      }
      if auth !in auths {
        return Err(Unauthorized);
      }
      var authUser := auths[auth];
      if channelID !in channels || !HasRecipient(channels[channelID], authUser) {
        return Err(UnknownChannel(400));
      }
      var channel := channels[channelID];
      var msg := Message(id, channel.id, authUser, content.value);
      messages := messages[id := msg];
      PushToRecipients(msg, channel.recipients);
      return Ok(msg);
    }

    method CreateReaction(auth: Auth, channelID: string, messageID: string, emoji: string) returns (r: Result<()>)
      requires Valid()
      modifies this`reactions, this`reacted
      ensures Valid()
      ensures (View(), r) == FakeStore.CreateReaction(old(View()), auth, channelID, messageID, emoji)
    {
      CreateReactionKeeps(View(), auth, channelID, messageID, emoji);
      if auth !in auths {
        return Err(Unauthorized);
      }
      var authUser := auths[auth];
      if channelID !in channels || !HasRecipient(channels[channelID], authUser) {
        return Err(UnknownChannel(404));
      }
      if messageID !in messages || messages[messageID].channelID != channelID {
        return Err(UnknownMessage);
      }
      var forMessage := if messageID in reactions then reactions[messageID] else map[];
      var usersForEmoji := if emoji in forMessage then forMessage[emoji] else {};
      usersForEmoji := usersForEmoji + {authUser};
      reactions := reactions[messageID := forMessage[emoji := usersForEmoji]];
      reacted := reacted + {(messageID, emoji, authUser)};
      return Ok(());
    }

    // `order` is the order in which the map loop visits the emojis.
    method LockedFormatMessageForUser(u: User, msg: Message, order: seq<string>) returns (f: Formatted)
      requires Orders(order, EmojisOf(reactions, msg.id))
      ensures f == FormatFor(View(), u, msg, order)
    {
      var list: seq<Reaction> := [];
      for i := 0 to |order|
        invariant list == FormatFor(View(), u, msg, order).reactions[..i]
      {
        assert order[i] in order;
        var reactors := reactions[msg.id][order[i]];
        list := list + [Reaction(order[i], |reactors|, u in reactors)];
      }
      f := Formatted(msg, list);
    }

    method GetChannelMessage(auth: Auth, channelID: string, messageID: string, order: seq<string>)
      returns (r: Result<Formatted>)
      requires Valid() && Orders(order, EmojisOf(reactions, messageID))
      ensures r == match Lookup(View(), auth, channelID, messageID)
                   case Err(e) => Err(e)
                   case Ok(m) => Ok(FormatFor(View(), auths[auth], m, order))
    {
      if auth !in auths {
        return Err(Unauthorized);
      }
      var authUser := auths[auth];
      if channelID !in channels || !HasRecipient(channels[channelID], authUser) {
        return Err(UnknownChannel(404));
      }
      if messageID !in messages || messages[messageID].channelID != channelID {
        return Err(UnknownMessage);
      }
      var f := LockedFormatMessageForUser(authUser, messages[messageID], order);
      return Ok(f);
    }
  }
}
