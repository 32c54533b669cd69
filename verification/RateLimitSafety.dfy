// What the rate limiter guarantees: over every interleaving of concurrent calls, and for how long
// one call can be kept waiting.
module RateLimitSafety {
  import opened Protocol
  import opened RateLimits

  // ---------- Which requests share a record ----------

  lemma JoinedOnce(a: string, b: string, c: string, d: string, sep: char)
    requires sep !in a && sep !in c
    ensures a + [sep] + b == c + [sep] + d <==> a == c && b == d
  {
    var x, y := a + [sep] + b, c + [sep] + d;
    assert x[|a|] == sep && (|c| < |a| ==> x[|c|] == a[|c|]);
    assert y[|c|] == sep && (|a| < |c| ==> y[|a|] == c[|a|]);
    if x == y {
      assert |a| == |c|;
      assert x[..|a|] == a && y[..|c|] == c && x[|a| + 1..] == b && y[|c| + 1..] == d;
    }
  }

  // Requests have the same route exactly when verb and path template agree; verbs have no spaces.
  lemma SameRoute(a: Request, b: Request)
    requires ' ' !in a.verb && ' ' !in b.verb
    ensures Route(a) == Route(b) <==> a.verb == b.verb && a.route == b.route
  {
    JoinedOnce(a.verb, a.route, b.verb, b.route, ' ');
  }

  predicate OnChannel(req: Request) {
    PathVar(req, "channel.id") != ""
  }

  predicate OnInteraction(req: Request) {
    !OnChannel(req) && PathVar(req, "interaction.id") != ""
  }

  predicate OnWebhook(req: Request) {
    !OnChannel(req) && !OnInteraction(req) && PathVar(req, "webhook.id") != ""
  }

  // Requests on channels share a major parameter exactly when the channel is the same, whatever else
  // their paths hold; requests on interactions, and those on webhooks, when id and token are the
  // same, IDs having no slashes; and any others always.
  lemma SameMajorParam(a: Request, b: Request)
    ensures OnChannel(a) && OnChannel(b) ==>
              (MajorParam(a) == MajorParam(b) <==> PathVar(a, "channel.id") == PathVar(b, "channel.id"))
    ensures OnInteraction(a) && OnInteraction(b)
            && '/' !in PathVar(a, "interaction.id") && '/' !in PathVar(b, "interaction.id") ==>
              (MajorParam(a) == MajorParam(b) <==>
                 && PathVar(a, "interaction.id") == PathVar(b, "interaction.id")
                 && PathVar(a, "interaction.token") == PathVar(b, "interaction.token"))
    ensures OnWebhook(a) && OnWebhook(b) && '/' !in PathVar(a, "webhook.id") && '/' !in PathVar(b, "webhook.id") ==>
              (MajorParam(a) == MajorParam(b) <==>
                 && PathVar(a, "webhook.id") == PathVar(b, "webhook.id")
                 && PathVar(a, "webhook.token") == PathVar(b, "webhook.token"))
    ensures MajorParam(a) == "" <==> !OnChannel(a) && !OnInteraction(a) && !OnWebhook(a)
  {
    if '/' !in PathVar(a, "interaction.id") && '/' !in PathVar(b, "interaction.id") {
      JoinedOnce(PathVar(a, "interaction.id"), PathVar(a, "interaction.token"),
                 PathVar(b, "interaction.id"), PathVar(b, "interaction.token"), '/');
    }
    if '/' !in PathVar(a, "webhook.id") && '/' !in PathVar(b, "webhook.id") {
      JoinedOnce(PathVar(a, "webhook.id"), PathVar(a, "webhook.token"),
                 PathVar(b, "webhook.id"), PathVar(b, "webhook.token"), '/');
    }
  }

  // ---------- Any number of concurrent calls ----------

  // Where a call is in `do`: about to read the clock; holding a reading but not yet the mutex;
  // asleep; allowed to send; waiting for the response; or returned.
  datatype Stage = Ready | Timed(now: int) | Asleep | Granted(grant: Grant) | Sent | Returned

  datatype Call = Call(req: Request, stage: Stage)

  datatype Sys = Sys(shared: Shared, calls: map<nat, Call>)

  datatype Step =
    | Begin(id: nat, req: Request)
    | ReadClock(id: nat, now: int)
    | TakeMutex(id: nat)
    | Wake(id: nat)
    | GiveUp(id: nat)
    | Send(id: nat)
    | Fail(id: nat)
    | Respond(id: nat, now: int, resp: Response)

  predicate At(s: Sys, id: nat, stage: Stage) {
    id in s.calls && s.calls[id].stage == stage
  }

  predicate Enabled(s: Sys, step: Step) {
    match step
    case Begin(id, _) => id !in s.calls
    case ReadClock(id, _) => At(s, id, Ready)
    case TakeMutex(id) => id in s.calls && s.calls[id].stage.Timed?
    case Wake(id) => At(s, id, Asleep)
    case GiveUp(id) => At(s, id, Asleep)
    case Send(id) => id in s.calls && s.calls[id].stage.Granted?
    case Fail(id) => At(s, id, Sent)
    case Respond(id, _, _) => At(s, id, Sent)
  }

  function Move(s: Sys, id: nat, stage: Stage): Sys
    requires id in s.calls
  {
    s.(calls := s.calls[id := s.calls[id].(stage := stage)])
  }

  function Do(s: Sys, step: Step): Sys
    requires Enabled(s, step)
  {
    match step
    case Begin(id, req) => s.(calls := s.calls[id := Call(req, Ready)])
    case ReadClock(id, now) => Move(s, id, Timed(now))
    case TakeMutex(id) =>
      var req, now := s.calls[id].req, s.calls[id].stage.now;
      var reset := NextReset(s.shared, req);
      Move(s.(shared := AfterCheck(s.shared, now, req)), id,
           if now > reset then Granted(Grant(now, reset)) else Asleep)
    case Wake(id) => Move(s, id, Ready)
    case GiveUp(id) => Move(s, id, Returned)
    case Send(id) => Move(s, id, Sent)
    case Fail(id) => Move(s, id, Returned)
    case Respond(id, now, resp) =>
      Move(s.(shared := AfterResponse(s.shared, now, s.calls[id].req, resp)), id,
           if resp.status == TOO_MANY_REQUESTS then Ready else Returned)
  }

  ghost predicate Run(s: Sys, steps: seq<Step>, t: Sys)
    decreases |steps|
  {
    if steps == [] then s == t
    else Enabled(s, steps[0]) && Run(Do(s, steps[0]), steps[1..], t)
  }

  // ---------- Safety ----------

  // The record that governs requests like `req` is used up until `reset`.
  predicate BlockedUntil(c: Shared, req: Request, reset: int) {
    Exhausted(c, req) && Governing(c, req).value.reset == reset
  }

  // A response that maps the route to another bucket, or writes into the record of the key.
  predicate Rewrites(s: Sys, step: Step, req: Request)
    requires Enabled(s, step)
  {
    step.Respond? && step.resp.bucket != ""
    && (Remaps(s, step, req)
        || (Key(step.resp.bucket, MajorParam(s.calls[step.id].req)) == KeyOf(s.shared, req)
            && (step.resp.remaining.Some? || step.resp.resetAfter.Some?)))
  }

  predicate Remaps(s: Sys, step: Step, req: Request)
    requires Enabled(s, step) && step.Respond?
  {
    Route(s.calls[step.id].req) == Route(req) && step.resp.bucket != Bucket(s.shared, req)
  }

  // Along a run no response rewrites what governs `req`.
  ghost predicate Untouched(s: Sys, steps: seq<Step>, req: Request)
    decreases |steps|
  {
    steps != [] ==>
      Enabled(s, steps[0]) && !Rewrites(s, steps[0], req) && Untouched(Do(s, steps[0]), steps[1..], req)
  }

  // The request is subject to the same record as `req`.
  predicate Alike(c: Shared, other: Request, req: Request) {
    Bucket(c, other) != "" && KeyOf(c, other) == KeyOf(c, req)
  }

  // Every grant along the run to a request that the record governs at that moment was read
  // strictly after `reset`.
  ghost predicate GrantsAfter(s: Sys, steps: seq<Step>, req: Request, reset: int)
    decreases |steps|
  {
    steps != [] && Enabled(s, steps[0]) ==>
      && (steps[0].TakeMutex? ==>
            var id := steps[0].id;
            var stage := Do(s, steps[0]).calls[id].stage;
            Alike(s.shared, s.calls[id].req, req) && stage.Granted? ==> stage.grant.now > reset)
      && GrantsAfter(Do(s, steps[0]), steps[1..], req, reset)
  }

  // A check counts the record down that governs its request, by one and never below zero, exactly
  // when it comes before the global reset it must wait for and something remains. Nothing else
  // changes.
  lemma CheckCountsDown(c: Shared, now: int, req: Request, key: Key)
    requires key in c.limits
    ensures var d := AfterCheck(c, now, req);
            && d.buckets == c.buckets && d.globalReset == c.globalReset && d.limits.Keys == c.limits.Keys
            && d.limits[key].reset == c.limits[key].reset
            && d.limits[key].remaining ==
                 if now < c.globalReset && Governs(c, req, key) && c.limits[key].remaining > 0
                 then c.limits[key].remaining - 1 else c.limits[key].remaining
  {
  }

  // The route is mapped to the key's bucket and the key is that of the request's major parameter.
  predicate Governs(c: Shared, req: Request, key: Key) {
    && req.verb + " " + req.route in c.buckets && c.buckets[req.verb + " " + req.route] == key.bucket != ""
    && MajorParam(req) == key.majorParam
  }

  // A critical section grants a request if and only if its clock reading is after the global reset
  // and after the reset of the record that governs the request, when that is used up.
  lemma GrantIff(s: Sys, id: nat)
    requires Enabled(s, TakeMutex(id))
    ensures var c, call := s.shared, s.calls[id];
            Do(s, TakeMutex(id)).calls[id].stage.Granted? <==>
              && call.stage.now > c.globalReset
              && forall key :: key in c.limits && Governs(c, call.req, key) && c.limits[key].remaining <= 0 ==>
                   call.stage.now > c.limits[key].reset
  {
    var c, req := s.shared, s.calls[id].req;
    if Exhausted(c, req) {
      assert Governs(c, req, KeyOf(c, req));
    }
  }

  lemma BlockedStays(s: Sys, step: Step, req: Request, reset: int)
    requires Enabled(s, step) && BlockedUntil(s.shared, req, reset) && !Rewrites(s, step, req)
    ensures BlockedUntil(Do(s, step).shared, req, reset)
  {
    if step.TakeMutex? {
      var call := s.calls[step.id];
      CheckCountsDown(s.shared, call.stage.now, call.req, KeyOf(s.shared, req));
    }
  }

  // Once a record is used up until `reset`, then in every interleaving, as long as no response
  // rewrites the record or remaps the route, it stays so and no request it governs is granted
  // with a clock reading that is not after `reset`.
  lemma {:induction false} NoGrantBeforeReset(s: Sys, steps: seq<Step>, t: Sys, req: Request, reset: int)
    requires Run(s, steps, t) && BlockedUntil(s.shared, req, reset) && Untouched(s, steps, req)
    ensures GrantsAfter(s, steps, req, reset) && BlockedUntil(t.shared, req, reset)
    decreases |steps|
  {
    if steps != [] {
      BlockedStays(s, steps[0], req, reset);
      NoGrantBeforeReset(Do(s, steps[0]), steps[1..], t, req, reset);
    }
  }

  // A response that reports nothing left blocks its record until the reset it announced.
  lemma ResponseBlocks(c: Shared, now: int, req: Request, resp: Response)
    requires resp.bucket != "" && resp.remaining.Some? && resp.remaining.value <= 0 && resp.resetAfter.Some?
    ensures BlockedUntil(AfterResponse(c, now, req, resp), req, now + resp.resetAfter.value)
  {
  }

  // A response that names a bucket maps exactly its own route to it and writes exactly the record of
  // bucket and major parameter: what its headers say, and otherwise what was there, or a fresh
  // record. The global reset stays.
  lemma ResponseRecords(c: Shared, now: int, req: Request, resp: Response, route: string, key: Key)
    requires resp.bucket != ""
    ensures var d := AfterResponse(c, now, req, resp);
            && d.globalReset == c.globalReset
            && (route in d.buckets <==> route in c.buckets || route == req.verb + " " + req.route)
            && (route in d.buckets ==>
                  d.buckets[route] == if route == req.verb + " " + req.route then resp.bucket else c.buckets[route])
            && (key in d.limits <==> key in c.limits || key == Key(resp.bucket, MajorParam(req)))
            && (key in d.limits && key != Key(resp.bucket, MajorParam(req)) ==> d.limits[key] == c.limits[key])
            && (key == Key(resp.bucket, MajorParam(req)) ==>
                  && d.limits[key].remaining ==
                       (if resp.remaining.Some? then resp.remaining.value
                        else if key in c.limits then c.limits[key].remaining else 0)
                  && d.limits[key].reset ==
                       if resp.resetAfter.Some? then now + resp.resetAfter.value
                       else if key in c.limits then c.limits[key].reset else ZERO_TIME)
  {
  }

  // A response that names no bucket but is marked global with a usable Retry-After holds back every
  // request until then: after that many seconds, or from that date on.
  lemma GlobalBlocks(c: Shared, now: int, req: Request, resp: Response, s: Sys, id: nat)
    requires resp.bucket == ""
    requires Enabled(s, TakeMutex(id)) && s.shared == AfterResponse(c, now, req, resp)
    ensures s.shared.buckets == c.buckets && s.shared.limits == c.limits
    ensures resp.isGlobal && resp.retryAfter.Seconds? && Do(s, TakeMutex(id)).calls[id].stage.Granted? ==>
              s.calls[id].stage.now > now + resp.retryAfter.n * SECOND
    ensures resp.isGlobal && resp.retryAfter.Date? && Do(s, TakeMutex(id)).calls[id].stage.Granted? ==>
              s.calls[id].stage.now > resp.retryAfter.t
    ensures !resp.isGlobal || resp.retryAfter.Unusable? ==> s.shared.globalReset == c.globalReset
    ensures resp.isGlobal && resp.retryAfter.Seconds? ==> s.shared.globalReset == now + resp.retryAfter.n * SECOND
    ensures resp.isGlobal && resp.retryAfter.Date? ==> s.shared.globalReset == resp.retryAfter.t
  {
    GrantIff(s, id);
  }

  // Every grant held by a call was read after the global reset that its critical section saw.
  ghost predicate GlobalRespected(s: Sys, steps: seq<Step>)
    decreases |steps|
  {
    steps != [] && Enabled(s, steps[0]) ==>
      && (steps[0].TakeMutex? ==>
            var stage := Do(s, steps[0]).calls[steps[0].id].stage;
            stage.Granted? ==> stage.grant.now > s.shared.globalReset)
      && GlobalRespected(Do(s, steps[0]), steps[1..])
  }

  lemma {:induction false} NoGrantDuringGlobal(s: Sys, steps: seq<Step>)
    ensures GlobalRespected(s, steps)
    decreases |steps|
  {
    if steps != [] && Enabled(s, steps[0]) {
      NoGrantDuringGlobal(Do(s, steps[0]), steps[1..]);
    }
  }

  // Grants given to a call along a run, and requests it sent.
  function Grants(s: Sys, steps: seq<Step>, id: nat): nat
    decreases |steps|
  {
    if steps == [] || !Enabled(s, steps[0]) then 0
    else
      var t := Do(s, steps[0]);
      (if steps[0] == TakeMutex(id) && t.calls[id].stage.Granted? then 1 else 0) + Grants(t, steps[1..], id)
  }

  function Sends(steps: seq<Step>, id: nat): nat {
    if steps == [] then 0 else (if steps[0] == Send(id) then 1 else 0) + Sends(steps[1..], id)
  }

  function Held(s: Sys, id: nat): nat {
    if id in s.calls && s.calls[id].stage.Granted? then 1 else 0
  }

  // Every request sent, retries included, uses up a grant of its own.
  lemma {:induction false} OneGrantPerSend(s: Sys, steps: seq<Step>, t: Sys, id: nat)
    requires Run(s, steps, t)
    ensures Held(s, id) + Grants(s, steps, id) == Sends(steps, id) + Held(t, id)
    decreases |steps|
  {
    if steps != [] {
      OneGrantPerSend(Do(s, steps[0]), steps[1..], t, id);
    }
  }

  // ---------- The request loop ----------

  // One send per round reached, always under a grant read after the reset it was compared with, and
  // a further round only after an answer of 429. An answer with any other status, and only that, is
  // returned; after one of 429 the call goes on until its rounds end or a wait gives no grant.
  ghost predicate SendsWell(d: Done, rounds: seq<Round>, stopped: bool) {
    && |d.sends| <= |rounds|
    && (forall g :: g in d.sends ==> g.now > g.reset)
    && (forall i :: 0 <= i < |d.sends| - 1 ==> Refused(rounds[i]))
    && d.response == (if d.sends != [] && Answered(rounds[|d.sends| - 1]) then rounds[|d.sends| - 1].response else None)
    && (stopped <==> |d.sends| < |rounds| && (d.sends == [] || Refused(rounds[|d.sends| - 1])))
  }

  predicate Refused(round: Round) {
    round.response.Some? && round.response.value.status == TOO_MANY_REQUESTS
  }

  predicate Answered(round: Round) {
    round.response.Some? && round.response.value.status != TOO_MANY_REQUESTS
  }

  // The wait of some round gave no grant.
  predicate Stops(c: Shared, req: Request, rounds: seq<Round>)
    decreases |rounds|
  {
    if rounds == [] then false
    else
      var w := WaitFrom(c, req, rounds[0].turns);
      w.grant.None?
      || (Refused(rounds[0])
          && Stops(AfterResponse(ActAll(w.after, rounds[0].others), rounds[0].now, req, rounds[0].response.value),
                   req, rounds[1..]))
  }

  lemma OneMoreSend(g: Grant, rest: Done, rounds: seq<Round>, stopped: bool)
    requires g.now > g.reset && rounds != [] && Refused(rounds[0]) && SendsWell(rest, rounds[1..], stopped)
    ensures SendsWell(rest.(sends := [g] + rest.sends), rounds, stopped)
  {
    forall i | 0 <= i < |rest.sends|
      ensures Refused(rounds[i])
    {
      assert i > 0 ==> rounds[i] == rounds[1..][i - 1];
    }
  }

  // A call sends once per round it reaches, always under a grant read after the reset it was
  // compared with, retries exactly while the answer is 429, and returns any other answer.
  lemma {:induction false} DoSends(c: Shared, req: Request, rounds: seq<Round>)
    ensures SendsWell(DoFrom(c, req, rounds), rounds, Stops(c, req, rounds))
    decreases |rounds|
  {
    if rounds != [] {
      var w := WaitFrom(c, req, rounds[0].turns);
      WaitsOut(c, req, rounds[0].turns);
      if w.grant.Some? && Refused(rounds[0]) {
        var after := AfterResponse(ActAll(w.after, rounds[0].others), rounds[0].now, req, rounds[0].response.value);
        DoSends(after, req, rounds[1..]);
        OneMoreSend(w.grant.value, DoFrom(after, req, rounds[1..]), rounds, Stops(after, req, rounds[1..]));
      }
    }
  }

  // A call waits on one timer for each turn but its last; its grant has that turn's reading and is
  // after the reset compared with; and without a grant, either a timer was not waited out because
  // the context ended, or the turns ran out.
  ghost predicate WaitsWell(w: Wait, turns: seq<Turn>) {
    && w.waits <= |turns|
    && (forall i :: 0 <= i < w.waits - 1 ==> turns[i].fires)
    && match w.grant
       case Some(g) =>
         && w.waits < |turns| && g.now == turns[w.waits].now > g.reset
         && (w.waits > 0 ==> turns[w.waits - 1].fires)
       case None => w.waits == |turns| || (w.waits > 0 && !turns[w.waits - 1].fires)
  }

  lemma OneMoreWait(w: Wait, turns: seq<Turn>)
    requires turns != [] && turns[0].fires && WaitsWell(w, turns[1..])
    ensures WaitsWell(w.(waits := w.waits + 1), turns)
  {
    forall i | 0 <= i < w.waits
      ensures turns[i].fires
      {
      }
  }

  lemma {:induction false} WaitsOut(c: Shared, req: Request, turns: seq<Turn>)
    ensures WaitsWell(WaitFrom(c, req, turns), turns)
    decreases |turns|
  {
    if turns != [] {
      var after := AfterCheck(ActAll(c, turns[0].others), turns[0].now, req);
      WaitsOut(after, req, turns[1..]);
      if turns[0].fires {
        OneMoreWait(WaitFrom(after, req, turns[1..]), turns);
      }
    }
  }

  // ---------- The loops are runs ----------

  lemma {:induction false} RunTrans(s: Sys, first: seq<Step>, t: Sys, second: seq<Step>, u: Sys)
    requires Run(s, first, t) && Run(t, second, u)
    ensures Run(s, first + second, u)
    decreases |first|
  {
    if first == [] {
      assert first + second == second;
    } else {
      RunTrans(Do(s, first[0]), first[1..], t, second, u);
      assert (first + second)[1..] == first[1..] + second;
    }
  }

  lemma {:induction false} SendsAppend(first: seq<Step>, second: seq<Step>, id: nat)
    ensures Sends(first + second, id) == Sends(first, id) + Sends(second, id)
  {
    if first == [] {
      assert first + second == second;
    } else {
      SendsAppend(first[1..], second, id);
      assert (first + second)[1..] == first[1..] + second;
    }
  }

  // A run in which this call sends that many requests and, of the calls there were, moves alone.
  // Others may begin and end.
  ghost predicate Moves(s: Sys, steps: seq<Step>, t: Sys, id: nat, sends: nat) {
    && Run(s, steps, t) && Sends(steps, id) == sends
    && id in s.calls && id in t.calls && t.calls[id].req == s.calls[id].req
    && forall n :: n in s.calls && n != id ==> n in t.calls && t.calls[n] == s.calls[n]
  }

  lemma MovesTrans(s: Sys, first: seq<Step>, t: Sys, second: seq<Step>, u: Sys, id: nat, m: nat, n: nat)
    requires Moves(s, first, t, id, m) && Moves(t, second, u, id, n)
    ensures Moves(s, first + second, u, id, m + n)
  {
    RunTrans(s, first, t, second, u);
    SendsAppend(first, second, id);
  }

  // A single step of a call's own.
  lemma MovesOnce(s: Sys, step: Step, id: nat)
    requires Enabled(s, step) && !step.Begin? && step.id == id
    ensures Moves(s, [step], Do(s, step), id, if step.Send? then 1 else 0)
  {
    var t := Do(s, step);
    assert [step][1..] == [] && Run(t, [], t);
  }

  // From `s` to `t` the calls that there were have not moved, and the others have left the shared
  // state as `c`.
  ghost predicate Stays(s: Sys, steps: seq<Step>, t: Sys, id: nat, c: Shared) {
    && Moves(s, steps, t, id, 0) && t.calls[id] == s.calls[id] && t.shared == c
  }

  lemma {:induction false} Unused(ids: set<nat>) returns (n: nat)
    ensures forall id :: id in ids ==> id < n
    decreases |ids|
  {
    n := 0;
    if ids != {} {
      var one :| one in ids;
      var rest := Unused(ids - {one});
      n := if one < rest then rest else one + 1;
      forall id | id in ids
        ensures id < n
      {
        assert id == one || id in ids - {one};
      }
    }
  }

  // A new call that checks once.
  lemma CheckIsRun(s: Sys, id: nat, now: int, req: Request) returns (n: nat, steps: seq<Step>, t: Sys)
    requires id in s.calls
    ensures n !in s.calls && n in t.calls && t.calls[n].req == req
    ensures t.calls[n].stage ==
              if now > NextReset(s.shared, req) then Granted(Grant(now, NextReset(s.shared, req))) else Asleep
    ensures Stays(s, steps, t, id, AfterCheck(s.shared, now, req))
  {
    n := Unused(s.calls.Keys);
    steps := [Begin(n, req), ReadClock(n, now), TakeMutex(n)];
    var s1 := Do(s, steps[0]);
    var s2 := Do(s1, steps[1]);
    t := Do(s2, steps[2]);
    assert steps[1..] == [steps[1], steps[2]] && steps[1..][1..] == [steps[2]] && [steps[2]][1..] == [];
    assert Run(s2, [steps[2]], t);
    assert Run(s1, steps[1..], t);
    assert Sends(steps, id) == Sends(steps[1..], id) == Sends([steps[2]], id) == 0;
  }

  // A call's exchange, which this call takes no part in.
  lemma RespondIsRun(s: Sys, id: nat, n: nat, now: int, resp: Response) returns (steps: seq<Step>, t: Sys)
    requires id in s.calls && n in s.calls && n != id && s.calls[n].stage.Granted?
    ensures Run(s, steps, t) && Sends(steps, id) == 0
    ensures t.calls.Keys == s.calls.Keys && forall m :: m in s.calls && m != n ==> t.calls[m] == s.calls[m]
    ensures t.shared == AfterResponse(s.shared, now, s.calls[n].req, resp)
  {
    steps := [Send(n), Respond(n, now, resp)];
    var u := Do(s, steps[0]);
    t := Do(u, steps[1]);
    assert steps[1..] == [steps[1]] && [steps[1]][1..] == [];
    assert Run(u, [steps[1]], t);
    assert Sends(steps, id) == Sends([steps[1]], id) == 0;
  }

  // Any critical section of another call can happen at any time: a call that begins late enough to
  // be granted at once may send a request and get any response.
  lemma OtherIsRun(s: Sys, id: nat, o: Other) returns (steps: seq<Step>, t: Sys)
    requires id in s.calls
    ensures Stays(s, steps, t, id, Act(s.shared, o))
  {
    var n;
    match o
    case OtherCheck(now, req) =>
      n, steps, t := CheckIsRun(s, id, now, req);
    case OtherResponse(now, req, resp) =>
      n, steps, t := CheckIsRun(s, id, NextReset(s.shared, req) + 1, req);
      var more, u := RespondIsRun(t, id, n, now, resp);
      RunTrans(s, steps, t, more, u);
      SendsAppend(steps, more, id);
      steps, t := steps + more, u;
  }

  lemma {:induction false} OthersAreRun(s: Sys, id: nat, others: seq<Other>) returns (steps: seq<Step>, t: Sys)
    requires id in s.calls
    ensures Stays(s, steps, t, id, ActAll(s.shared, others))
    decreases |others|
  {
    steps, t := [], s;
    if others != [] {
      steps, t := OtherIsRun(s, id, others[0]);
      var more, u := OthersAreRun(t, id, others[1..]);
      MovesTrans(s, steps, t, more, u, id, 0, 0);
      steps, t := steps + more, u;
    }
  }

  // One pass of the waiting loop as steps of the call, with others between the reading of the clock
  // and the critical section.
  lemma PassIsRun(s: Sys, id: nat, now: int, others: seq<Other>) returns (steps: seq<Step>, t: Sys)
    requires At(s, id, Ready)
    ensures Moves(s, steps, t, id, 0)
    ensures var req, seen := s.calls[id].req, ActAll(s.shared, others);
            var reset := NextReset(seen, req);
            && t.shared == AfterCheck(seen, now, req)
            && t.calls[id].stage == if now > reset then Granted(Grant(now, reset)) else Asleep
  {
    var u := Do(s, ReadClock(id, now));
    MovesOnce(s, ReadClock(id, now), id);
    var more, v := OthersAreRun(u, id, others);
    MovesTrans(s, [ReadClock(id, now)], u, more, v, id, 0, 0);
    t := Do(v, TakeMutex(id));
    MovesOnce(v, TakeMutex(id), id);
    steps := [ReadClock(id, now)] + more;
    MovesTrans(s, steps, v, [TakeMutex(id)], t, id, 0, 0);
    steps := steps + [TakeMutex(id)];
  }

  // What the waiting loop computes, with any critical sections of other calls in between, is a run
  // of the concurrent system: to its grant, to giving up, or to wherever the script leaves it.
  lemma {:induction false} WaitIsRun(s: Sys, id: nat, turns: seq<Turn>) returns (steps: seq<Step>, t: Sys)
    requires At(s, id, Ready)
    ensures Moves(s, steps, t, id, 0)
    ensures var w := WaitFrom(s.shared, s.calls[id].req, turns);
            && t.shared == w.after
            && (if w.grant.Some? then t.calls[id].stage == Granted(w.grant.value)
                else t.calls[id].stage in {Ready, Returned})
    decreases |turns|
  {
    if turns == [] {
      steps, t := [], s;
    } else {
      steps, t := PassIsRun(s, id, turns[0].now, turns[0].others);
      if t.calls[id].stage == Asleep {
        var last := if turns[0].fires then Wake(id) else GiveUp(id);
        var u := Do(t, last);
        MovesOnce(t, last, id);
        MovesTrans(s, steps, t, [last], u, id, 0, 0);
        steps, t := steps + [last], u;
        if turns[0].fires {
          var more, v := WaitIsRun(u, id, turns[1..]);
          MovesTrans(s, steps, u, more, v, id, 0, 0);
          steps, t := steps + more, v;
        }
      }
    }
  }

  // The exchange of one round: the request, other calls, then the response or a transport error.
  lemma ExchangeIsRun(s: Sys, id: nat, round: Round) returns (steps: seq<Step>, t: Sys)
    requires id in s.calls && s.calls[id].stage.Granted?
    ensures Moves(s, steps, t, id, 1)
    ensures var seen := ActAll(s.shared, round.others);
            match round.response
            case None => t.shared == seen && t.calls[id].stage == Returned
            case Some(resp) =>
              && t.shared == AfterResponse(seen, round.now, s.calls[id].req, resp)
              && t.calls[id].stage == if resp.status == TOO_MANY_REQUESTS then Ready else Returned
  {
    var u := Do(s, Send(id));
    MovesOnce(s, Send(id), id);
    var more, v := OthersAreRun(u, id, round.others);
    MovesTrans(s, [Send(id)], u, more, v, id, 1, 0);
    var last := if round.response.None? then Fail(id) else Respond(id, round.now, round.response.value);
    t := Do(v, last);
    MovesOnce(v, last, id);
    steps := [Send(id)] + more;
    MovesTrans(s, steps, v, [last], t, id, 1, 0);
    steps := steps + [last];
  }

  // What the whole request loop computes, whatever other calls do in between, is a run of the
  // concurrent system with as many requests sent. So the properties of every interleaving are
  // properties of the loop.
  lemma {:induction false} DoIsRun(s: Sys, id: nat, rounds: seq<Round>) returns (steps: seq<Step>, t: Sys)
    requires At(s, id, Ready)
    ensures var d := DoFrom(s.shared, s.calls[id].req, rounds);
            && Moves(s, steps, t, id, |d.sends|) && t.shared == d.after
            && t.calls[id].stage in {Ready, Returned}
            && (d.response.Some? ==> t.calls[id].stage == Returned)
    decreases |rounds|
  {
    if rounds == [] {
      steps, t := [], s;
    } else {
      steps, t := WaitIsRun(s, id, rounds[0].turns);
      if t.calls[id].stage.Granted? {
        var more, u := ExchangeIsRun(t, id, rounds[0]);
        MovesTrans(s, steps, t, more, u, id, 0, 1);
        steps, t := steps + more, u;
        if t.calls[id].stage == Ready {
          var rest, v := DoIsRun(u, id, rounds[1..]);
          MovesTrans(s, steps, u, rest, v, id, 1, |DoFrom(u.shared, s.calls[id].req, rounds[1..]).sends|);
          steps, t := steps + rest, v;
        }
      }
    }
  }

  // ---------- Bounded waiting ----------

  ghost predicate Calm(others: seq<Other>) {
    forall i :: 0 <= i < |others| ==> others[i].OtherCheck?
  }

  // No response gets in, the context lasts, the clock strictly advances, and no timer fires early.
  ghost predicate Punctual(c: Shared, req: Request, turns: seq<Turn>)
    decreases |turns|
  {
    turns != [] ==>
      var seen := ActAll(c, turns[0].others);
      && Calm(turns[0].others)
      && turns[0].fires
      && (|turns| > 1 ==> turns[1].now > turns[0].now && turns[1].now >= NextReset(seen, req))
      && Punctual(AfterCheck(seen, turns[0].now, req), req, turns[1..])
  }

  // Checks leave a request's record and times alone, except that it may become used up.
  ghost predicate Tightens(c: Shared, d: Shared, req: Request) {
    && d.globalReset == c.globalReset
    && Bucket(d, req) == Bucket(c, req)
    && (Governing(d, req).Some? <==> Governing(c, req).Some?)
    && (Governing(c, req).Some? ==> Governing(d, req).value.reset == Governing(c, req).value.reset)
    && (Exhausted(c, req) ==> Exhausted(d, req))
  }

  lemma CheckTightens(c: Shared, now: int, other: Request, req: Request)
    ensures Tightens(c, AfterCheck(c, now, other), req)
  {
    if Governing(c, req).Some? {
      CheckCountsDown(c, now, other, KeyOf(c, req));
    }
  }

  lemma {:induction false} CalmTightens(c: Shared, others: seq<Other>, req: Request)
    requires Calm(others)
    ensures Tightens(c, ActAll(c, others), req)
    decreases |others|
  {
    if others != [] {
      CheckTightens(c, others[0].now, others[0].req, req);
      CalmTightens(Act(c, others[0]), others[1..], req);
    }
  }

  // One pass: granted, or one more wait before the passes that follow.
  lemma Pass(c: Shared, req: Request, turns: seq<Turn>)
    requires turns != [] && Punctual(c, req, turns)
    ensures var seen := ActAll(c, turns[0].others);
            var after := AfterCheck(seen, turns[0].now, req);
            && Tightens(c, seen, req) && Tightens(seen, after, req)
            && (turns[0].now > NextReset(seen, req) ==>
                  WaitFrom(c, req, turns).grant.Some? && WaitFrom(c, req, turns).waits == 0)
            && (turns[0].now <= NextReset(seen, req) ==>
                  && WaitFrom(c, req, turns).grant == WaitFrom(after, req, turns[1..]).grant
                  && WaitFrom(c, req, turns).waits == WaitFrom(after, req, turns[1..]).waits + 1
                  && Punctual(after, req, turns[1..])
                  && (|turns| > 1 ==> turns[1].now > turns[0].now && turns[1].now >= NextReset(seen, req)))
  {
    CalmTightens(c, turns[0].others, req);
    CheckTightens(ActAll(c, turns[0].others), turns[0].now, req, req);
  }

  // The record is used up once the calls that get in before this pass's critical section are done.
  predicate ExhaustedNow(c: Shared, req: Request, turns: seq<Turn>)
    requires turns != []
  {
    Exhausted(ActAll(c, turns[0].others), req)
  }

  // With the record used up, the reset no longer moves: at most two waits, or one if the clock has
  // already reached it.
  lemma {:induction false} ExhaustedWaits(c: Shared, req: Request, turns: seq<Turn>)
    requires turns != [] && Punctual(c, req, turns) && ExhaustedNow(c, req, turns)
    requires |turns| >= 3
             || (|turns| == 2 && turns[0].now >= NextReset(ActAll(c, turns[0].others), req))
             || turns[0].now > NextReset(ActAll(c, turns[0].others), req)
    ensures WaitFrom(c, req, turns).grant.Some? && WaitFrom(c, req, turns).waits <= 2
    ensures turns[0].now >= NextReset(ActAll(c, turns[0].others), req) ==> WaitFrom(c, req, turns).waits <= 1
    decreases |turns|
  {
    Pass(c, req, turns);
    var seen := ActAll(c, turns[0].others);
    if turns[0].now <= NextReset(seen, req) {
      var after := AfterCheck(seen, turns[0].now, req);
      Pass(after, req, turns[1..]);
      ExhaustedWaits(after, req, turns[1..]);
    }
  }

  // With the record not used up and the clock at the global reset: at most three waits.
  lemma ReachedWaits(c: Shared, req: Request, turns: seq<Turn>)
    requires |turns| >= 4 && Punctual(c, req, turns) && !ExhaustedNow(c, req, turns)
    requires turns[0].now >= c.globalReset
    ensures WaitFrom(c, req, turns).grant.Some? && WaitFrom(c, req, turns).waits <= 3
  {
    Pass(c, req, turns);
    var seen := ActAll(c, turns[0].others);
    if turns[0].now <= NextReset(seen, req) {
      var after := AfterCheck(seen, turns[0].now, req);
      Pass(after, req, turns[1..]);
      if ExhaustedNow(after, req, turns[1..]) {
        ExhaustedWaits(after, req, turns[1..]);
      }
    }
  }

  // Four waits are always enough: the two resets in play, the global one and then perhaps the
  // record's, each cost a wait to reach and, at the exact instant, another to pass.
  lemma FourWaitsSuffice(c: Shared, req: Request, turns: seq<Turn>)
    requires |turns| >= 5 && Punctual(c, req, turns)
    ensures WaitFrom(c, req, turns).grant.Some? && WaitFrom(c, req, turns).waits <= 4
  {
    Pass(c, req, turns);
    var seen := ActAll(c, turns[0].others);
    if ExhaustedNow(c, req, turns) {
      ExhaustedWaits(c, req, turns);
    } else if turns[0].now <= NextReset(seen, req) {
      var after := AfterCheck(seen, turns[0].now, req);
      Pass(after, req, turns[1..]);
      if ExhaustedNow(after, req, turns[1..]) {
        ExhaustedWaits(after, req, turns[1..]);
      } else {
        ReachedWaits(after, req, turns[1..]);
      }
    }
  }

  // And four can be needed: once the global reset has just passed, a call whose clock reading is
  // older takes the last of the bucket.
  lemma FourWaitsNeeded() returns (c: Shared, req: Request, turns: seq<Turn>)
    ensures |turns| == 5 && Punctual(c, req, turns)
    ensures WaitFrom(c, req, turns).grant.Some? && WaitFrom(c, req, turns).waits == 4
  {
    req := Request("GET", "/gateway", map[]);
    var key := Key("b", "");
    c := Shared(map[Route(req) := "b"], map[key := Limit(2, 20)], 10);
    turns := [Turn(5, [], true), Turn(10, [], true), Turn(11, [OtherCheck(6, req)], true),
              Turn(20, [], true), Turn(21, [], true)];
    var c1 := c.(limits := map[key := Limit(1, 20)]);
    var c2 := c.(limits := map[key := Limit(0, 20)]);
    assert Governing(c, req) == Some(Limit(2, 20));
    assert AfterCheck(c, 5, req) == c1;
    assert ActAll(c1, [OtherCheck(6, req)]) == ActAll(c2, []) == c2;
    FiveTurns(c, c1, c2, req, turns);
  }

  lemma FiveTurns(c: Shared, c1: Shared, c2: Shared, req: Request, t: seq<Turn>)
    requires |t| == 5 && forall i :: 0 <= i < 5 ==> t[i].fires && Calm(t[i].others)
    requires t[0].others == t[1].others == t[3].others == t[4].others == []
    requires AfterCheck(c, t[0].now, req) == AfterCheck(c1, t[1].now, req) == c1 && ActAll(c1, t[2].others) == c2
    requires AfterCheck(c2, t[2].now, req) == AfterCheck(c2, t[3].now, req) == c2
    requires t[0].now <= NextReset(c, req) <= t[1].now == NextReset(c1, req)
    requires t[0].now < t[1].now < t[2].now < t[3].now == NextReset(c2, req) < t[4].now
    ensures Punctual(c, req, t) && WaitFrom(c, req, t).grant.Some? && WaitFrom(c, req, t).waits == 4
  {
    assert t[1..][1..] == t[2..] && t[2..][1..] == t[3..] && t[3..][1..] == t[4..] && t[4..][1..] == [];
    assert Punctual(AfterCheck(c2, t[4].now, req), req, []);
    assert Punctual(c2, req, t[4..]);
    assert Punctual(c2, req, t[3..]);
    assert Punctual(c1, req, t[2..]);
    assert Punctual(c1, req, t[1..]);
    assert WaitFrom(c2, req, t[4..]).waits == 0 && WaitFrom(c2, req, t[4..]).grant.Some?;
    assert WaitFrom(c2, req, t[3..]).waits == 1;
    assert WaitFrom(c1, req, t[2..]).waits == 2;
    assert WaitFrom(c1, req, t[1..]).waits == 3;
  }
}
