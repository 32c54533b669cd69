# Verification of the Discord client's stateful core

This project models, in Dafny, the parts of `zombiezen.com/go/discord` whose behaviour spans many
calls, goroutines or connections, and proves what they promise over every run.

- `Protocol.dfy` holds the gateway payloads and what the client decodes from them.
- `Next.dfy` is `Gateway.next` as an interleaving of its heartbeat and reader goroutines.
- `Discord.dfy` is the world outside the client: an abstract server with one log per session, a
  websocket link, and a script of everything the client cannot choose.
- `Schedule.dfy` is one call of `next` under a script: what it does to the connection, and that every
  interleaving has a script.
- `Client.dfy` is the client as a function of its state and the script, with its invariant and
  exactly-once delivery over whole runs; `Resuming.dfy` and `Starting.dfy` show that a session can
  always be taken up again, a new one had, and an open one followed; `Gateway.dfy` is the client itself, a class with the source's fields and methods, each proved
  to do what its function says.
- `RateLimit.dfy` and `RateLimitSafety.dfy` are the rate limiter, its loops, and its behaviour under
  any interleaving of concurrent calls.
- `FakeStore.dfy`, `FakeServer.dfy` and `FakeQueue.dfy` are the fake server's data, its request
  handlers, and the event queue of one connection with its goroutines; `FakeSystem.dfy` puts one store
  and any number of connections together.
- `ReadBody.dfy` is the bounded body reader, `Snowflake.dfy` the ID generator.

## How the outside world is represented

Network outcomes, the server's actions, goroutine scheduling, clock readings, timers, generated IDs
and the order of map loops are inputs. In the gateway they come from a finite script of turns that is
handed in with each caller's context. One turn lets the server act any number of times, may end the
context, and decides whether one operation succeeds or which goroutine moves. A script that runs out
is a context that is done. Every operation outside `next` takes one turn, which can give it any outcome,
and every interleaving inside `next` is the work of some script (`Scheduling.ScriptCovers`), so every
call that returns is covered by some script, whatever happened during it. The rate limiter's loops work
the same way.

The server may append events to any log, deliver them with any delay, send any control frame at any
time, answer Identify with a fresh session, answer Resume(s, k) by replaying from entry k + 1, or
refuse. It keeps one log per session, READY first; every dispatch, RESUMED included, carries its
position in the log. READY data may be malformed or name no session, but does not name another one.
A hello that decodes announces a positive interval, which `time.NewTicker` needs. A frame that does not
decode is a failed read.

Times in the rate limiter are integers in nanoseconds, with the zero time before all readings.

## Model

| member | source | states |
|---|---|---|
| Protocol.Decodes | gateway.go:208-217 | READY and hello data decode unless missing, of another kind, or with the field of another type; null and an absent field give the zero value |
| NextProtocol.NextOutcome | gateway.go:223-289 | over every interleaving, `next` never returns (nil, nil); it returns a message exactly when the event came before every error, and then the message is the last frame read and the first that is neither a heartbeat request nor an ACK, every ACK read has been handled, `pendingAck` is exact and tick-driven heartbeats kept their discipline |
| NextProtocol.NoDeadlock | gateway.go:230-284 | in every reachable state before cancellation each goroutine is in a network operation or the ticker's select, or can move; after cancellation each that has not ended can move with no help from outside |
| NextProtocol.EndsOnceCancelled | gateway.go:236-283 | from any cancelled state every interleaving is at most nine steps longer, and one that cannot be extended has ended both goroutines |
| NextProtocol.OneEndsBoth | gateway.go:228-285 | once either goroutine has ended, in any interleaving, the other ends within nine steps of the two |
| NextProtocol.RequestsAnswered | gateway.go:242-263 | over every interleaving, heartbeats sent in answer are as many as the requests read, but for one on its way and one for each goroutine that has ended; with both at rest they are equal |
| NextProtocol.TicksBeat | gateway.go:234-241 | over every interleaving, each tick leads to a heartbeat, except one that ends the heartbeat goroutine |
| NextProtocol.EndsForAReason | gateway.go:234-283 | the heartbeat goroutine ends only on a tick with a heartbeat outstanding, a failed write or the context's end, the reader only on a failed read, an event or the context's end, and the error names the reason |
| NextProtocol.FirstDecides | gateway.go:284-288 | an event read before either goroutine failed is returned by every interleaving that goes on from there, and after a failure the call returns that failure |
| NextProtocol.RunInv | gateway.go:223-289 | the invariant behind these results holds in every state an interleaving reaches |
| NextProtocol.TallyMeans | gateway.go:231-255 | the running tally of a connection says exactly what its history of heartbeats and ACKs says |
| GatewayClient.Gateway.HeartbeatDiscipline | gateway.go:46 | between calls, on an open connection, `pendingAck` holds exactly when a heartbeat is unanswered, a tick never sent one while an earlier one was, and every ACK read was handled |
| Scheduling.NextOk | gateway.go:284-288 | a call of `next` that returns a message has moved the link past exactly that message and settled the connection; a dispatch is the next entry of the attached session's log |
| Scheduling.DriveRuns | gateway.go:228-285 | what the scripted scheduler executes is an interleaving of the two goroutines that runs to the end of both |
| Scheduling.ScriptCovers | gateway.go:228-285 | conversely, every finished interleaving whose frames come from the link, with any server actions in between, is what some script makes the goroutines do |
| Scheduling.EventReturns | gateway.go:256-288 | an event at the head of the link is the message returned, and the link is moved past it, whenever the scheduler lets the reader read it before a failure or the context's end |
| Discord.ActOk | gateway.go:396-416 | no server action rewrites a log or moves the place on the link from which the client reads on |
| Discord.TakeOk | gateway.go:496-533 | a dispatch taken from the link is the next entry of the attached session's log |
| Clients.RecordOk | gateway.go:204-220 | recording the next entry of the attached log keeps session id, sequence number and the events shown in step with the log, over READY, RESUMED and malformed READY alike |
| Clients.ResumeAttaches | gateway.go:397-416 | a dispatch answering Resume continues the session at exactly the entry after the sequence number, the event being buffered and not yet counted |
| Clients.ProgressExtends | gateway.go:49-51 | what the client knows of its session stays right while the server's logs grow |
| Clients.ExchangeOk | gateway.go:399-416 | the answer to a handshake frame, if it is a dispatch, is the entry the link has just moved past, and one that answers Resume leaves the link in step with the session |
| Clients.OpenOk | gateway.go:345-467 | an attempt that succeeds leaves the connection in step with the log, a running ticker, and its first event buffered and not counted; it gives up the session or keeps it |
| Clients.OpenCoherent | gateway.go:345-467 | in every attempt Resume carries exactly the session held and the number of the last dispatch consumed, only a refusal gives up the session and then Identify is sent if the context lasts, Identify is sent only with no session held, and the success callback is told resumed only if the attempt callback was and no Identify was sent |
| Clients.OpenHello | gateway.go:368-388 | an attempt that succeeds had a hello that decodes, and the ticker runs with exactly its interval |
| Clients.EnsureConnOk | gateway.go:317-338 | retrying ends connected, or with the context done and nothing open; nothing is consumed on the way |
| Clients.NextEventOk | gateway.go:167-198 | a dispatch extends what was shown by itself, and READY gives exactly the session its data names; anything else closes the connection and shows nothing, and only an Invalid Session whose data is not true gives up the session |
| Clients.TakeEventOk | gateway.go:157-182 | a buffered event, which always belongs to the open connection, is consumed first and exactly once, without touching the network; READY gives the session its data names, and any other event keeps the session |
| Clients.ListenOk | gateway.go:141-220 | nothing is returned only when the context is done; otherwise a dispatch that is not RESUMED, which extends what was shown; after READY the client holds the session that its data names, with its number, or none if it does not decode |
| Clients.RecordsExtend | gateway.go:397-401 | what the Resume frames sent so far carried stays anchored in the sessions' logs while these grow |
| Clients.ExactlyOnce | gateway.go:147-467 | over any sequence of Listen, WaitForReady and Close, with any failures, while a session is held the payloads returned end with the session's log up to the sequence number without RESUMED; every attempt in the run was coherent, and every Resume frame named a session and the number of the entry of its log that was the last dispatch consumed |
| Resuming.CanResume | gateway.go:147-467 | from every state with a session held and an entry still to be shown, some course of events makes Listen return the next one that is not RESUMED, over a new connection, with any hello, that resumes unless that entry is buffered already |
| Starting.CanStart | gateway.go:397-466 | from every state with no event buffered on an open connection, with a session held and refused or with none, some course of events makes Listen return the READY of any new session and hold it, over a new connection with any hello |
| Starting.CanFollow | gateway.go:147-182 | a client that has seen all of its session is given the next event over the connection it has |
| GatewayClient.Gateway.constructor | gateway.go:92-99 | a new gateway has no connection, no session and nothing buffered |
| GatewayClient.Gateway.Next | gateway.go:223-289 | the loop returns what its script's interleaving returns, and leaves the connection's state as that does |
| GatewayClient.Gateway.UpdateSession | gateway.go:204-220 | a non-dispatch changes nothing; READY sets exactly the session its data names or, if malformed, clears the session and leaves the number; any other dispatch sets the number |
| GatewayClient.Gateway.Send | gateway.go:535-579 | a write fails at once on a done context without reaching the server; otherwise the server gets the request |
| GatewayClient.Gateway.Read | gateway.go:496-533 | a read returns the frame at the head of the link, or fails |
| GatewayClient.Gateway.Hello | gateway.go:368-388 | the ticker runs, with the announced interval, exactly when a hello that decodes was read |
| GatewayClient.Gateway.Converse | gateway.go:399-410 | the answer to a handshake frame is the message of the `next` that follows the write |
| GatewayClient.Gateway.Resume | gateway.go:397-435 | Resume carries the held session and number; a dispatch is buffered, Invalid Session clears the session and lets the attempt go on if the pause ends before the context, and any other answer fails keeping it |
| GatewayClient.Gateway.Identify | gateway.go:436-466 | it succeeds exactly on a READY dispatch, which is buffered |
| GatewayClient.Gateway.Handshake | gateway.go:396-466 | connection, session, buffered event and record are those that the script determines: resuming first if a session is held, identifying otherwise or after a refusal |
| GatewayClient.Gateway.Greet | gateway.go:368-466 | after a good hello all is as the handshake leaves it, with the ticker running exactly on success; without one nothing is sent |
| GatewayClient.Gateway.Open | gateway.go:345-467 | the attempt succeeds exactly when dial, hello and handshake do under the script; a failure leaves neither connection nor ticker nor buffered event |
| GatewayClient.Gateway.Connect | gateway.go:340-467 | an existing connection is left alone; otherwise the client becomes what one attempt under the script makes of it, with one more record |
| GatewayClient.Gateway.EnsureConn | gateway.go:317-338 | the retry loop makes of the client what retrying under the script does, attempt by attempt |
| GatewayClient.Gateway.WaitForReady | gateway.go:134-139 | success means connected; failure means the context is done; nothing is consumed |
| GatewayClient.Gateway.CloseWithCode | gateway.go:296-315 | connection and ticker are both gone; the result is success exactly when there was no connection or both the close frame and the socket's close went well; only an open connection makes the world move on |
| GatewayClient.Gateway.Close | gateway.go:292-294 | closing keeps session, sequence number and buffered state, so that a later connection can resume, and reports exactly whether it went well |
| GatewayClient.Gateway.NextEvent | gateway.go:167-198 | a dispatch is recorded and returned; anything else hangs up, and only a non-resumable Invalid Session clears the session |
| GatewayClient.Gateway.TakeEvent | gateway.go:157-182 | the buffered event is consumed if there is one, and otherwise the next one read |
| GatewayClient.Gateway.Listen | gateway.go:141-200 | the loop leaves the client, and returns, exactly what the script determines, so that an event the script lets through is returned |
| GatewayClient.Run | gateway.go:147-467 | the object does in any sequence of calls what the client's functions say, and so delivers exactly once and resumes only from where it had got to |
| RateLimits.Client.Check | rate_limit.go:76-94 | the critical section computes the reset to wait for from the global reset and the governing record, and counts a record down only during a wait |
| RateLimits.Client.Record | discord.go:194-226 | the critical section records bucket, remaining and reset, or the global reset, as the headers say |
| RateLimits.Client.WaitForRateLimit | rate_limit.go:72-109 | the loop grants, waits or gives up as its specification function says, with other calls getting in between clock reading and mutex |
| RateLimits.Client.Do | discord.go:178-233 | the loop sends under one grant per round and retries on 429, as its specification function says |
| RateLimitSafety.NoGrantBeforeReset | rate_limit.go:85-98 | in every interleaving, a record used up until a reset stays so and no request it governs is granted with a reading not after it, until a response writes a count or reset into that record or maps the route to another bucket; responses for other major parameters on the same route and bucket do not matter |
| RateLimitSafety.ResponseBlocks | discord.go:195-216 | a response with nothing remaining blocks its record until the reset it announces |
| RateLimitSafety.NoGrantDuringGlobal | rate_limit.go:78-98 | no grant has a reading at or before the global reset that its critical section sees |
| RateLimitSafety.OneGrantPerSend | discord.go:179-189 | in every interleaving each request sent, retries included, uses a grant of its own |
| RateLimitSafety.CheckCountsDown | rate_limit.go:86-91 | a check counts down exactly the record that governs its request, by one and never below zero, if and only if it comes before the global reset and something remains |
| RateLimitSafety.GrantIff | rate_limit.go:76-98 | a critical section grants if and only if its reading is after the global reset and after the reset of the governing record when that is used up |
| RateLimitSafety.ResponseRecords | discord.go:194-215 | a response that names a bucket maps its own route to it and writes the record of bucket and major parameter as its headers say, and changes nothing else |
| RateLimitSafety.GlobalBlocks | discord.go:216-226 | a global response with a usable Retry-After holds back every request until then, and without one changes nothing |
| RateLimitSafety.SameMajorParam | rate_limit.go:58-70 | requests share a major parameter exactly when the channel is the same, or without one the interaction's or the webhook's id and token |
| RateLimitSafety.SameRoute | rate_limit.go:54-56 | requests share a route exactly when method and path template agree |
| RateLimitSafety.WaitsOut | rate_limit.go:75-108 | a call waits out one timer for each turn before its grant, which has its own turn's reading and is after the reset; without a grant, the context ended during a wait or the turns ran out |
| RateLimitSafety.DoSends | discord.go:179-233 | every send was granted after the reset it was compared with, every round before the last was answered 429, an answer with any other status, and only that, is returned, and after one of 429 the call goes on unless a wait gives no grant |
| RateLimitSafety.WaitIsRun | rate_limit.go:75-108 | the waiting loop, with any critical sections of other calls in between, is a run of the concurrent system that moves none of the calls there were but this one: to its grant, to giving up, or to where it is now |
| RateLimitSafety.DoIsRun | discord.go:178-233 | the whole request loop, whatever other calls do in between, is a run of the concurrent system in which the call sends exactly as many requests |
| RateLimitSafety.OtherIsRun | discord.go:178-233 | any critical section of another call, with any response, can happen at any moment of a run |
| RateLimitSafety.FourWaitsSuffice | rate_limit.go:75-108 | with no response interfering, an advancing clock and punctual timers, a call is granted after at most four waits, whatever checks others make |
| RateLimitSafety.FourWaitsNeeded | rate_limit.go:75-108 | four waits can be needed |
| FakeQueue.Gateway.LockedPush | fakediscord/gateway.go:52-58 | the event is queued last, and the wake-up channel is closed exactly when this is the first event and one is set; no channel is closed twice |
| FakeQueue.Gateway.LockedDrain | fakediscord/gateway.go:192-206 | the drainer takes the whole queue, or leaves a new channel to be woken by |
| FakeQueue.NoLostWakeup | fakediscord/gateway.go:43-58 | in every reachable state a set channel is open, means an empty queue and a drainer waiting on it or gone; a drainer is never blocked with events queued; no channel is closed twice |
| FakeQueue.StreamIsDue | fakediscord/gateway.go:189-214 | at every step of a connection, whatever is posted to it, events handed over, rest of batch and queue are exactly the events due, in order, once each |
| FakeQueue.WireIsPrefixOfDue | fakediscord/gateway.go:216-233 | the events written to the client are a prefix of those due since registration |
| FakeQueue.RepliesInOrder | fakediscord/gateway.go:147-183 | every heartbeat and identify message gets its reply, ACK, READY or Invalid Session, in order, until the reader ends |
| FakeQueue.DeliversAll | fakediscord/gateway.go:191-213 | on a living connection the drainer and the writer alone can deliver everything due, in a bounded number of steps |
| FakeQueue.OneEndsAll | fakediscord/gateway.go:98-237 | once any goroutine of a connection has ended, the others can end by themselves and the connection is unregistered, within six steps |
| FakeSystem.StreamIsPosted | fakediscord/fakediscord.go:257-308 | in every run of the whole server, each connection was handed, holds or has queued exactly the posts, each not empty and by any recipient of a channel, to channels of the user it had identified as by then, in order |
| FakeSystem.DueIsNew | fakediscord/fakediscord.go:288-296 | those messages are all stored, were not there before, and none comes twice |
| FakeSystem.EventsArePosts | fakediscord/gateway.go:152-233 | from the server's start, what a client was sent is a prefix of exactly those messages, each once, also when a channel lists its user twice |
| FakeServer.Server.CreateUserChannel | fakediscord/fakediscord.go:169-208 | the map loop finds the first serving channel in its order, and only without one creates a channel; all error cases |
| FakeServer.Server.PushToRecipients | fakediscord/fakediscord.go:298-308 | every gateway whose user is a recipient gets the event exactly once, the others nothing |
| FakeServer.Server.PushIfAddressed | fakediscord/fakediscord.go:299-307 | one push at most, also when the channel lists the user twice |
| FakeServer.Server.CreateMessage | fakediscord/fakediscord.go:257-310 | a successful post stores the message and pushes it; a failed one changes nothing |
| FakeServer.Server.CreateReaction | fakediscord/fakediscord.go:312-350 | a successful reaction adds the user under the emoji and nothing else; all error cases |
| FakeServer.Server.LockedRegisterUser | fakediscord/fakediscord.go:402-421 | registration adds one user under its ID and its credential and keeps the store whole |
| FakeServer.Server.RegisterGateway | fakediscord/gateway.go:94-97 | a new connection joins the fan-out with an empty queue and no user |
| FakeServer.Server.UnregisterGateway | fakediscord/gateway.go:98-103 | an ended connection leaves the fan-out, and no other does |
| FakeServer.Server.Identify | fakediscord/gateway.go:152-183 | the bot credential is looked up before the bearer one; an unknown token changes nothing, a known one sets only this connection's user |
| FakeServer.Server.LockedFormatMessageForUser | fakediscord/fakediscord.go:352-365 | the loop lists one reaction per emoji of the message |
| FakeServer.Server.GetChannelMessage | fakediscord/fakediscord.go:229-255 | only a recipient of the message's channel sees it |
| FakeStore.RunKeeps | fakediscord/fakediscord.go:169-350 | over every run: no two channels have the same recipients, each message has its channel and an author in it, stored reactions are exactly the successful ones and by recipients only, and channels and messages never change |
| FakeStore.DirectMessageIsUnique | fakediscord/fakediscord.go:196-200 | for distinct users the channel found depends neither on map order nor on who asks |
| FakeStore.DirectMessageIsStable | fakediscord/fakediscord.go:169-208 | get or create: the channel a request gives for two distinct users, found or just made, is what a request by either for the other gives after any later requests, which then changes nothing |
| FakeStore.OrderFreeIff | fakediscord/fakediscord.go:196-200 | in general the answer is independent of map order if and only if at most one channel serves both users |
| FakeStore.SelfChannelDependsOnOrder | fakediscord/fakediscord.go:196-200 | a server comes, by five requests, to a state in which a registered user who asks for a channel with themselves can be given either of two |
| FakeStore.CreateUserChannelKeeps | fakediscord/fakediscord.go:169-208 | a channel returned is stored and serves both users, and integrity is kept |
| FakeStore.CreateMessageKeeps | fakediscord/fakediscord.go:288-296 | a stored message has the poster as author, and integrity is kept |
| FakeStore.CreateReactionKeeps | fakediscord/fakediscord.go:337-348 | the reaction becomes part of history, and integrity is kept |
| FakeStore.PostsIff | fakediscord/fakediscord.go:257-310 | a post succeeds if and only if it is not empty and a known user posts it who is any recipient of a stored channel; each error says what was wrong first, and changes nothing |
| FakeStore.OpensIff | fakediscord/fakediscord.go:169-208 | a channel is given if and only if a known user names a known user; errors change nothing |
| FakeStore.ReadsIff | fakediscord/fakediscord.go:229-350 | a message can be read, and reacted to, if and only if it is in a channel of the user's; errors change nothing |
| FakeStore.RegistersUser | fakediscord/fakediscord.go:402-421 | a user registered is known by ID and credential and, on a gateway, by token, bots first; nobody else is affected |
| FakeStore.TokensIff | fakediscord/gateway.go:160-166 | a gateway's token names a user exactly when it is a bot's or another user's |
| FakeStore.FormatCounts | fakediscord/fakediscord.go:352-365 | each emoji ever used is listed once, with the number of distinct users who reacted, at least one, and whether the viewer did |
| Bodies.ReadBody | discord.go:887-920 | a declared length over the limit is refused unread; at most maxSize bytes are all returned with the stream's own error, end of file being none; of more, the first maxSize with an error that reports maxSize + 1; no more than that is consumed, capacity stays within it, and growing copies fewer than twice the bytes read, none without growth |
| Bodies.ReadTwice | discord.go:887-920 | two readers that split one stream differently give the same result |
| Bodies.ReadMore | discord.go:908-909 | every read gets a non-empty rest of the buffer and extends what is held of the stream |
| Snowflakes.BitsRoundTrip | snowflake/snowflake.go:38-58 | with the masks and shifts on 64 bits: packing the fields of any value clears the top bit and nothing else, and extraction gives each argument masked, from an ID that is not negative |
| Snowflakes.NewIsArithmetic | snowflake/snowflake.go:38-42 | the masks, shifts and ors of packing compute the sum that the arithmetic form states, without overlap or overflow |
| Snowflakes.FieldsAreArithmetic | snowflake/snowflake.go:44-58 | the shifts and masks of extraction, signs included, compute the quotients and remainders of the arithmetic form |
| Snowflakes.PackUnpack | snowflake/snowflake.go:38-58 | packing the fields of any 64-bit value clears the top bit and nothing else |
| Snowflakes.UnpackPack | snowflake/snowflake.go:38-58 | extraction gives each argument cut to its width, and a packed ID is not negative |
| Snowflakes.PackOrder | snowflake/snowflake.go:29-58 | IDs are ordered by timestamp, instance, sequence |
| Snowflakes.Generator.Generate | snowflake/snowflake.go:86-94 | the ID is made of the time since the epoch, the instance and the counter, which then moves on modulo 4096 |
| Snowflakes.Generated | snowflake/snowflake.go:86-94 | a generated ID is not negative and holds the milliseconds since the epoch, the instance and the counter, each in its width |
| Snowflakes.GenerateAll | snowflake/snowflake.go:78-94 | the n-th call after Init uses counter n modulo 4096 |
| Snowflakes.UniqueIff | snowflake/snowflake.go:84-94 | for every clock whatever, the documented uniqueness holds if and only if no two calls a multiple of 4096 apart have readings a multiple of 2^41 milliseconds apart |
| Snowflakes.UniqueIfSteady | snowflake/snowflake.go:84-94 | for a clock that never goes back and stays within 2^41 ms, that is when every call is in an earlier millisecond than the one 4096 places later |
| Snowflakes.Repeats | snowflake/snowflake.go:84-94 | uniqueness fails for 4097 calls in one millisecond, and for one call a millisecond from the epoch on with a clock that is set back |
| Snowflakes.InstancesDisjoint | snowflake/snowflake.go:50-53 | generators whose instances differ modulo 1024 never share an ID |

## Findings

- `Generate` documents a unique ID on every call. `Snowflakes.UniqueIff` gives the exact condition on
  the clock's readings, whatever they are. `Snowflakes.Repeats` shows two ways it fails: 4097 calls
  in one millisecond, and a wall clock that is set back.
- A user who asks the fake server for a channel with themselves may be given any of their two-party
  channels, depending on map order; `FakeStore.OrderFreeIff` gives the exact condition, and
  `FakeStore.SelfChannelDependsOnOrder` the requests that lead there.
- With other calls in flight, a wait for the rate limit can take four timers and never more, because a
  call that read the clock before a global reset can still take the last of a bucket after it.

## Left out

- HTTP, JSON, WebSocket and tracing libraries, URL handling and the REST wrappers: their outcomes are inputs.
- The deadline-watching goroutines inside `read` and `write`: operations may fail, and end after cancellation.
- GatewayClient.Gateway.CloseWithCode: does not model the close code and text, which nothing else reads.
- GatewayClient.Gateway.Listen: does not model calls of the error callback or the text of errors.
- GatewayClient.Gateway.Connect: attempt and success callbacks are recorded with their flags, not called.
- NextProtocol.NextOutcome: does not claim that every heartbeat request was answered; the next event can cancel the write.
- A limit on sends per window: the source compares the clock with the reset it is about to wait for, so a record is counted down only during a wait.
- RateLimits.Client.Do: does not model turning an answer outside 200-299 into an error once the loop has ended.
- Termination of `do` under repeated 429 answers: nothing in the source bounds it.
- Overflow of `time.Duration` and of the platform's integers.
- READY as the first frame on a fake-server connection: events may be queued before it is sent.
- FakeServer.Server.CreateMessage: generated channel, message and user IDs are taken to be new, which uniqueness of the snowflakes supports; request bodies come already decoded.
- The fake server's HTTP routing, logging and token generation, and reading a channel by ID.
- Sessions and sequence numbers on the fake server, which has none; resuming is modelled against the abstract server.
