/**
The plugin's copy of its backend session.  The plugin counts a session's life from the
moment the reply arrives, the server from the moment it issued it; a margin is to cover
the difference.  Shown: whatever is in flight, and whatever the two clocks' offset, a
request that is sent on a session believed valid, and answered, reaches the server before
the session has expired there; and exactly which margins have that effect.
*/
module ClientSession {
  const TIMEOUT := 15.0
  const MARGIN := 30
  const TTL := 1800

  /** The token, if any, and when it ends by the plugin's clock. */
  datatype Held = Held(token: string, expiry: real)

  /** Whole seconds between two instants, towards zero. */
  function SecsTo(now: real, then': real): int {
    if then' >= now then (then' - now).Floor else -(now - then').Floor
  }

  predicate Valid(h: Held, now: real) {
    h.token != "" && SecsTo(now, h.expiry) > MARGIN
  }

  // ------------------------------------------------------------ obtaining a session

  /** What a call to the backend comes to. */
  datatype Reply = Body(token: string, expiresIn: int) | Unauthorized | Failure

  datatype Result = Ok | StorageError | InvalidResponse | NotAuthorized | Failed

  function ResultOf(r: Reply): Result {
    match r
    case Body(_, _) => Ok
    case Unauthorized => NotAuthorized
    case Failure => Failed
  }

  predicate Usable(r: Reply) {
    r.Body? && r.token != "" && r.expiresIn > 0
  }

  /** Asking for a new session, answered at `at`: anything but a usable answer drops the token. */
  function Fetched(h: Held, stored: bool, r: Reply, at: real): (Result, Held) {
    if !stored then (StorageError, h)
    else if Usable(r) then (Ok, Held(r.token, at + r.expiresIn as real))
    else (if r.Body? then InvalidResponse else ResultOf(r), h.(token := ""))
  }

  /** Ensuring a session at `now`; `stored` says whether the installation's secret can be read. */
  function Ensured(h: Held, now: real, stored: bool, refresh: Reply, at: real, again: Reply, at': real)
    : (Result, Held)
  {
    if Valid(h, now) then (Ok, h)
    else if !stored then (StorageError, h)
    else if h.token == "" then Fetched(h, stored, again, at')
    else if Usable(refresh) then (Ok, Held(refresh.token, at + refresh.expiresIn as real))
    else if refresh == Unauthorized then Fetched(h, stored, again, at')
    else (ResultOf(refresh), h)
  }

  /** When it was last answered, if it asked at all. */
  function EndsAt(h: Held, now: real, stored: bool, refresh: Reply, at: real, at': real): real {
    if Valid(h, now) || !stored then now
    else if h.token == "" || refresh == Unauthorized then at' else at
  }

  /** The answer that decides, when the session held is not valid. */
  function Decisive(h: Held, refresh: Reply, again: Reply): Reply {
    if h.token == "" || refresh == Unauthorized then again else refresh
  }

  /**
  Reporting success means holding a valid session, unless the decisive answer is short of
  the margin or is a refresh answered without a usable token: then it reports success on
  the old session.
  */
  lemma OkMeansValid(h: Held, now: real, stored: bool, refresh: Reply, at: real, again: Reply,
                     at': real)
    requires now <= at <= at'
    ensures var (r, h') := Ensured(h, now, stored, refresh, at, again, at');
            r == Ok ==>
              (Valid(h', EndsAt(h, now, stored, refresh, at, at'))
               <==> Valid(h, now) || (Usable(Decisive(h, refresh, again))
                                      && Decisive(h, refresh, again).expiresIn > MARGIN))
  {
    var d := Decisive(h, refresh, again);
    if Usable(d) {
      var end := EndsAt(h, now, stored, refresh, at, at');
      assert end + d.expiresIn as real - end == d.expiresIn as real;
    }
    if now <= h.expiry && at <= h.expiry {
      assert h.expiry - at <= h.expiry - now;
    }
  }

  /** A plugin that has just obtained a session, and whose refresh half an hour later is answered without a token. */
  lemma OkWithoutSession()
    ensures var (first, held) := Ensured(Held("", 0.0), 0.0, true, Failure, 0.0, Body("t", TTL), 0.0);
            var (second, held') := Ensured(held, 1800.0, true, Body("", 0), 1800.0, Failure, 1800.0);
            first == Ok && Valid(held, 0.0) && second == Ok && !Valid(held', 1800.0)
  {
    assert SecsTo(0.0, 1800.0) == TTL;
    assert SecsTo(1800.0, 1800.0) == 0;
  }

  /** A session counts as valid with 31 seconds left, and no less. */
  lemma ValidMeans(h: Held, now: real)
    ensures Valid(h, now) <==> h.token != "" && h.expiry - now >= 31.0
  {
  }

  /**
  What ensuring a session comes to: a valid one is kept; else without the installation's
  secret nothing is asked; else a held token is refreshed, and only a refused refresh, or
  no token, asks for a new session.  A usable answer is stored; a failed new session drops
  the token, a failed refresh keeps it.
  */
  lemma EnsuredMeans(h: Held, now: real, stored: bool, refresh: Reply, at: real, again: Reply, at': real)
    ensures var (r, h') := Ensured(h, now, stored, refresh, at, again, at');
            var asksAnew := h.token == "" || refresh == Unauthorized;
            var answer := if asksAnew then again else refresh;
            var usable := answer.Body? && answer.token != "" && answer.expiresIn > 0;
            && (Valid(h, now) ==> r == Ok && h' == h)
            && (!Valid(h, now) && !stored ==> r == StorageError && h' == h)
            && (!Valid(h, now) && stored && usable ==>
                  r == Ok && h' == Held(answer.token, (if asksAnew then at' else at) + answer.expiresIn as real))
            && (!Valid(h, now) && stored && !usable && asksAnew ==>
                  && h'.token == "" && (r == InvalidResponse <==> again.Body?)
                  && (r == NotAuthorized <==> again == Unauthorized) && (r == Failed <==> again == Failure))
            && (!Valid(h, now) && stored && !usable && !asksAnew ==>
                  h' == h && (r == Ok <==> refresh.Body?) && (r == Failed <==> refresh == Failure))
  {
  }

  class Client {
    var held: Held

    constructor ()
      ensures held == Held("", 0.0)
    {
      held := Held("", 0.0);
    }

    method HasValidSession(now: real) returns (ok: bool)
      ensures ok <==> Valid(held, now)
    {
      ok := held.token != "" && SecsTo(now, held.expiry) > MARGIN;
    }

    method StoreSession(r: Reply, at: real) returns (ok: bool)
      requires r.Body?
      modifies this
      ensures ok <==> Usable(r)
      ensures held == if ok then Held(r.token, at + r.expiresIn as real) else old(held)
    {
      if r.token == "" || r.expiresIn <= 0 {
        return false;
      }
      held := Held(r.token, at + r.expiresIn as real);
      return true;
    }

    method FreshSession(stored: bool, r: Reply, at: real) returns (result: Result)
      modifies this
      ensures (result, held) == Fetched(old(held), stored, r, at)
    {
      if !stored {
        return StorageError;
      }
      if r.Body? {
        var ok := StoreSession(r, at);
        if ok {
          return Ok;
        }
      }
      held := held.(token := "");
      return if r.Body? then InvalidResponse else ResultOf(r);
    }

    method EnsureSession(now: real, stored: bool, refresh: Reply, at: real, again: Reply,
                         at': real) returns (result: Result)
      modifies this
      ensures (result, held) == Ensured(old(held), now, stored, refresh, at, again, at')
    {
      var valid := HasValidSession(now);
      if valid {
        return Ok;
      }
      if !stored {
        return StorageError;
      }
      if held.token != "" {
        if refresh.Body? {
          var ok := StoreSession(refresh, at);
          return Ok;
        }
        if refresh.Unauthorized? {
          result := FreshSession(stored, again, at');
          return;
        }
        return ResultOf(refresh);
      }
      result := FreshSession(stored, again, at');
    }
  }

  // ------------------------------------------------------------ the margin

  /** A session issued at `issue` and received within one timeout, used while valid, is handled in time. */
  predicate InTime(margin: int, timeout: real, issue: real, receipt: real, sent: real, handled: real) {
    issue <= receipt <= issue + timeout && receipt <= sent && SecsTo(sent, receipt + TTL as real) > margin
    && sent <= handled <= sent + timeout
    ==> handled < issue + TTL as real
  }

  /** A margin does its work exactly if two timeouts are shorter than it and one second. */
  lemma WhichMargins(margin: int, timeout: real)
    requires 0 <= margin < TTL && timeout >= 0.0
    ensures (forall issue, receipt, sent, handled :: InTime(margin, timeout, issue, receipt, sent, handled))
       <==> 2.0 * timeout < (margin + 1) as real
  {
    if 2.0 * timeout < (margin + 1) as real {
      forall issue, receipt, sent, handled
        ensures InTime(margin, timeout, issue, receipt, sent, handled)
      {
      }
    } else {
      var sent := timeout + (TTL - margin - 1) as real;
      assert SecsTo(sent, timeout + TTL as real) == margin + 1;
      assert !InTime(margin, timeout, 0.0, timeout, sent, sent + timeout);
    }
  }

  // ------------------------------------------------------------ everything in flight at once

  /** A session reply on its way: for a request sent at `sent`. */
  datatype Flying = Flying(token: string, sent: real)

  /** A request sent on a session. */
  datatype Request = Request(token: string, sent: real)

  /** `server` has each token's expiry; the plugin's clock is `offset` ahead. */
  datatype World = World(held: Held, server: map<string, real>, flying: set<Flying>, requests: set<Request>,
                         clock: real)

  datatype Event =
    | Issue(token: string, sent: real, now: real)
    | Prolong(token: string, until: real, now: real)
    | Deliver(reply: Flying, now: real)
    | Drop(now: real)
    | Send(now: real)
    | Handle(request: Request, now: real)

  predicate Possible(w: World, e: Event, offset: real) {
    && w.clock <= e.now
    && match e
       case Issue(token, sent, now) => token != "" && token !in w.server && sent <= now
       case Prolong(token, until, _) => token in w.server && w.server[token] <= until
       case Deliver(reply, now) => reply in w.flying && now <= reply.sent + TIMEOUT
       case Drop(_) => true
       case Send(now) => Valid(w.held, now + offset)
       case Handle(request, now) => request in w.requests && now <= request.sent + TIMEOUT
  }

  function Step(w: World, e: Event, offset: real): World {
    match e
    case Issue(token, sent, now) =>
      w.(server := w.server[token := now + TTL as real], flying := w.flying + {Flying(token, sent)}, clock := now)
    case Prolong(token, until, now) => w.(server := w.server[token := until], clock := now)
    case Deliver(reply, now) =>
      w.(held := Held(reply.token, now + offset + TTL as real), flying := w.flying - {reply}, clock := now)
    case Drop(now) => w.(held := w.held.(token := ""), clock := now)
    case Send(now) => w.(requests := w.requests + {Request(w.held.token, now)}, clock := now)
    case Handle(request, now) => w.(requests := w.requests - {request}, clock := now)
  }

  predicate PossibleRun(w: World, run: seq<Event>, offset: real)
    decreases |run|
  {
    run == [] || (Possible(w, run[0], offset) && PossibleRun(Step(w, run[0], offset), run[1..], offset))
  }

  function Run(w: World, run: seq<Event>, offset: real): World
    decreases |run|
  {
    if run == [] then w else Run(Step(w, run[0], offset), run[1..], offset)
  }

  ghost predicate Inv(w: World, offset: real) {
    && (w.held.token != "" ==> w.held.token in w.server && w.held.expiry - offset <= w.server[w.held.token] + TIMEOUT)
    && (forall f :: f in w.flying ==> f.token != "" && f.token in w.server && f.sent + TTL as real <= w.server[f.token])
    && (forall r :: r in w.requests ==> r.token in w.server && r.sent + TIMEOUT < w.server[r.token])
  }

  lemma StepKeeps(w: World, e: Event, offset: real)
    requires Inv(w, offset) && Possible(w, e, offset)
    ensures Inv(Step(w, e, offset), offset)
  {
  }

  lemma {:induction false} RunKeeps(w: World, run: seq<Event>, offset: real)
    requires Inv(w, offset) && PossibleRun(w, run, offset)
    ensures Inv(Run(w, run, offset), offset)
    decreases |run|
  {
    if run != [] {
      StepKeeps(w, run[0], offset);
      RunKeeps(Step(w, run[0], offset), run[1..], offset);
    }
  }

  const START := World(Held("", 0.0), map[], {}, {}, 0.0)

  /** Whatever happened before, a request answered in time is handled before its session expires. */
  lemma {:induction false} HandledInTime(run: seq<Event>, offset: real, request: Request, now: real)
    requires PossibleRun(START, run, offset)
    requires Possible(Run(START, run, offset), Handle(request, now), offset)
    ensures var server := Run(START, run, offset).server;
            request.token in server && now < server[request.token]
  {
    RunKeeps(START, run, offset);
  }
}
