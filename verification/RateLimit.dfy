// Rate limiting shared by any number of concurrent API calls.
module RateLimits {
  import opened Protocol

  // Times are nanoseconds. The zero time, which an unset reset holds, precedes every reading.
  const ZERO_TIME := 0
  const SECOND := 1_000_000_000
  const TOO_MANY_REQUESTS := 429

  datatype Request = Request(verb: string, route: string, pathVars: map<string, string>)

  function PathVar(req: Request, name: string): string {
    if name in req.pathVars then req.pathVars[name] else ""
  }

  function Route(req: Request): string {
    req.verb + " " + req.route
  }

  function MajorParam(req: Request): string {
    if PathVar(req, "channel.id") != "" then PathVar(req, "channel.id")
    else if PathVar(req, "interaction.id") != "" then
      PathVar(req, "interaction.id") + "/" + PathVar(req, "interaction.token")
    else if PathVar(req, "webhook.id") != "" then
      PathVar(req, "webhook.id") + "/" + PathVar(req, "webhook.token")
    else ""
  }

  datatype Key = Key(bucket: string, majorParam: string)

  datatype Limit = Limit(remaining: int, reset: int)

  // The client's fields under its mutex.
  datatype Shared = Shared(buckets: map<string, string>, limits: map<Key, Limit>, globalReset: int)

  // A Retry-After header: seconds, an HTTP date, or neither.
  datatype RetryAfter = Seconds(n: int) | Date(t: int) | Unusable

  // The parts of a response that matter here; a header that does not parse is None.
  datatype Response = Response(
    status: int,
    bucket: string,
    remaining: Option<int>,
    resetAfter: Option<int>,
    isGlobal: bool,
    retryAfter: RetryAfter)

  // ---------- The two critical sections ----------

  function Bucket(c: Shared, req: Request): string {
    if Route(req) in c.buckets then c.buckets[Route(req)] else ""
  }

  function KeyOf(c: Shared, req: Request): Key {
    Key(Bucket(c, req), MajorParam(req))
  }

  // The record that governs a request, if one is known.
  function Governing(c: Shared, req: Request): Option<Limit> {
    if Bucket(c, req) != "" && KeyOf(c, req) in c.limits then Some(c.limits[KeyOf(c, req)]) else None
  }

  predicate Exhausted(c: Shared, req: Request) {
    Governing(c, req).Some? && Governing(c, req).value.remaining <= 0
  }

  // The time a request must wait out.
  function NextReset(c: Shared, req: Request): int {
    if Exhausted(c, req) && Governing(c, req).value.reset > c.globalReset then Governing(c, req).value.reset
    else c.globalReset
  }

  function AfterCheck(c: Shared, now: int, req: Request): Shared {
    if Governing(c, req).Some? && now < NextReset(c, req) && !Exhausted(c, req) then
      var limit := Governing(c, req).value;
      c.(limits := c.limits[KeyOf(c, req) := limit.(remaining := limit.remaining - 1)])
    else c
  }

  function AfterResponse(c: Shared, now: int, req: Request, resp: Response): Shared {
    if resp.bucket != "" then
      var key := Key(resp.bucket, MajorParam(req));
      var limit := if key in c.limits then c.limits[key] else Limit(0, ZERO_TIME);
      var counted := if resp.remaining.Some? then limit.(remaining := resp.remaining.value) else limit;
      var dated := if resp.resetAfter.Some? then counted.(reset := now + resp.resetAfter.value) else counted;
      c.(buckets := c.buckets[Route(req) := resp.bucket], limits := c.limits[key := dated])
    else if resp.isGlobal then
      match resp.retryAfter
      case Seconds(n) => c.(globalReset := now + n * SECOND)
      case Date(t) => c.(globalReset := t)
      case Unusable => c
    else c
  }

  // ---------- One call among many ----------

  // A critical section of some other call.
  datatype Other = OtherCheck(now: int, req: Request) | OtherResponse(now: int, req: Request, resp: Response)

  function Act(c: Shared, o: Other): Shared {
    match o
    case OtherCheck(now, req) => AfterCheck(c, now, req)
    case OtherResponse(now, req, resp) => AfterResponse(c, now, req, resp)
  }

  function ActAll(c: Shared, others: seq<Other>): Shared
    decreases |others|
  {
    if others == [] then c else ActAll(Act(c, others[0]), others[1..])
  }

  // One pass of the waiting loop: the clock is read, other calls get in, and then this call has
  // its critical section. If it must wait, either its timer fires or its context ends.
  datatype Turn = Turn(now: int, others: seq<Other>, fires: bool)

  // A grant carries the clock reading and the reset it was compared with.
  datatype Grant = Grant(now: int, reset: int)

  datatype Wait = Wait(grant: Option<Grant>, waits: nat, after: Shared)

  function WaitFrom(c: Shared, req: Request, turns: seq<Turn>): Wait
    decreases |turns|
  {
    if turns == [] then Wait(None, 0, c)
    else
      var seen := ActAll(c, turns[0].others);
      var after := AfterCheck(seen, turns[0].now, req);
      if turns[0].now > NextReset(seen, req) then Wait(Some(Grant(turns[0].now, NextReset(seen, req))), 0, after)
      else if !turns[0].fires then Wait(None, 1, after)
      else
        var rest := WaitFrom(after, req, turns[1..]);
        rest.(waits := rest.waits + 1)
  }

  // One round of the request loop: a wait, the exchange, and the calls that get in before the
  // response is recorded. No response is a transport error.
  datatype Round = Round(turns: seq<Turn>, response: Option<Response>, others: seq<Other>, now: int)

  datatype Done = Done(response: Option<Response>, sends: seq<Grant>, after: Shared)

  function DoFrom(c: Shared, req: Request, rounds: seq<Round>): Done
    decreases |rounds|
  {
    if rounds == [] then Done(None, [], c)
    else
      var w := WaitFrom(c, req, rounds[0].turns);
      if w.grant.None? then Done(None, [], w.after)
      else
        var seen := ActAll(w.after, rounds[0].others);
        if rounds[0].response.None? then Done(None, [w.grant.value], seen)
        else
          var resp := rounds[0].response.value;
          var after := AfterResponse(seen, rounds[0].now, req, resp);
          if resp.status != TOO_MANY_REQUESTS then Done(Some(resp), [w.grant.value], after)
          else
            var rest := DoFrom(after, req, rounds[1..]);
            rest.(sends := [w.grant.value] + rest.sends)
  }

  class Client {
    var rateLimitBuckets: map<string, string>
    var rateLimits: map<Key, Limit>
    var globalRateLimitReset: int

    function View(): Shared
      reads this
    {
      Shared(rateLimitBuckets, rateLimits, globalRateLimitReset)
    }

    constructor ()
      ensures View() == Shared(map[], map[], ZERO_TIME)
    {
      rateLimitBuckets, rateLimits, globalRateLimitReset := map[], map[], ZERO_TIME;
    }

    // The critical section of `waitForRateLimit`.
    method Check(now: int, req: Request) returns (nextReset: int)
      modifies this
      ensures nextReset == NextReset(old(View()), req)
      ensures View() == AfterCheck(old(View()), now, req)
    {
      nextReset := globalRateLimitReset;
      var bucket := if Route(req) in rateLimitBuckets then rateLimitBuckets[Route(req)] else "";
      if bucket != "" {
        var key := Key(bucket, MajorParam(req));
        if key in rateLimits {
          var limit := rateLimits[key];
          if limit.remaining <= 0 && limit.reset > nextReset {
            nextReset := limit.reset;
          }
          if now < nextReset && limit.remaining > 0 {
            rateLimits := rateLimits[key := limit.(remaining := limit.remaining - 1)];
          }
        }
      }
    }

    // The critical section of `do` that records a response's headers.
    method Record(now: int, req: Request, resp: Response)
      modifies this
      ensures View() == AfterResponse(old(View()), now, req, resp)
    {
      if resp.bucket != "" {
        rateLimitBuckets := rateLimitBuckets[Route(req) := resp.bucket];
        var key := Key(resp.bucket, MajorParam(req));
        var limit := if key in rateLimits then rateLimits[key] else Limit(0, ZERO_TIME);
        if resp.remaining.Some? {
          limit := limit.(remaining := resp.remaining.value);
        }
        if resp.resetAfter.Some? {
          limit := limit.(reset := now + resp.resetAfter.value);
        }
        rateLimits := rateLimits[key := limit];
      } else if resp.isGlobal {
        match resp.retryAfter
        case Seconds(n) => globalRateLimitReset := now + n * SECOND;
        case Date(t) => globalRateLimitReset := t;
        case Unusable =>
      }
    }

    // Other calls on the same client get in.
    method Interfere(others: seq<Other>)
      modifies this
      ensures View() == ActAll(old(View()), others)
    {
      var i := 0;
      while i < |others|
        invariant 0 <= i <= |others|
        invariant ActAll(View(), others[i..]) == ActAll(old(View()), others)
      {
        match others[i] {
          case OtherCheck(now, req) =>
            var _ := Check(now, req);
          case OtherResponse(now, req, resp) =>
            Record(now, req, resp);
        }
        i := i + 1;
      }
    }

    method WaitForRateLimit(req: Request, turns: seq<Turn>) returns (grant: Option<Grant>, ghost waits: nat)
      modifies this
      ensures Wait(grant, waits, View()) == WaitFrom(old(View()), req, turns)
    {
      var i := 0;
      waits := 0;
      while i < |turns|
        invariant 0 <= i <= |turns| && waits == i
        invariant var rest := WaitFrom(View(), req, turns[i..]);
                  rest.(waits := rest.waits + waits) == WaitFrom(old(View()), req, turns)
      {
        var now := turns[i].now;
        Interfere(turns[i].others);
        var nextReset := Check(now, req);
        if now > nextReset {
          return Some(Grant(now, nextReset)), waits;
        }
        waits := waits + 1;
        if !turns[i].fires {
          return None, waits;
        }
        i := i + 1;
      }
      return None, waits;
    }

    // The request loop; `sends` are the grants under which a request was sent, one each.
    method Do(req: Request, rounds: seq<Round>) returns (response: Option<Response>, sends: seq<Grant>)
      modifies this
      ensures Done(response, sends, View()) == DoFrom(old(View()), req, rounds)
    {
      var i := 0;
      sends := [];
      while i < |rounds|
        invariant 0 <= i <= |rounds|
        invariant var rest := DoFrom(View(), req, rounds[i..]);
                  rest.(sends := sends + rest.sends) == DoFrom(old(View()), req, rounds)
      {
        var grant, _ := WaitForRateLimit(req, rounds[i].turns);
        if grant.None? {
          return None, sends;
        }
        sends := sends + [grant.value];
        Interfere(rounds[i].others);
        if rounds[i].response.None? {
          return None, sends;
        }
        var resp := rounds[i].response.value;
        Record(rounds[i].now, req, resp);
        if resp.status != TOO_MANY_REQUESTS {
          return Some(resp), sends;
        }
        i := i + 1;
      }
      return None, sends;
    }
  }
}
