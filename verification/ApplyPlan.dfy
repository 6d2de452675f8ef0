/**
The Independent-mode Apply run of the dock, one platform at a time and on its own.

A `Plan` is what one platform does when nothing else exists: the requests it sends, in
order, and the single result shown for it.  Nothing here is shared between platforms;
module `ApplyDock` shows that the dock's shared queue and shared flags compute exactly
these plans.
*/
module ApplyPlan {

  datatype Platform = Twitch | YouTube | Kick | Facebook

  datatype Outcome =
    | Success
    | BadRequest
    | AuthRequired
    | Forbidden
    | NotFound
    | Conflict
    | RateLimited
    | ServerRetry
    | NetworkError

  /** A message shown with a result: the text of an outcome, or one of the special texts. */
  datatype Message = Plain(outcome: Outcome) | Eligibility(code: int) | NeedTitle | PersistentKey

  datatype Verdict = Verdict(platform: Platform, ok: bool, message: Message)

  /**
  What the dock reads from one answer: transport failure, HTTP status, the Graph error
  code and subcode, how many usable broadcasts a listing held, whether a created video
  had an id, whether the error text was the persistent-key one, and whether a token
  answer carried a new refresh token.
  */
  datatype Reply = Reply(netFail: bool, http: int, code: int, sub: int, items: nat,
                         hasId: bool, keyError: bool, rotated: bool)

  /** A request.  `again` is the resend that follows a token refresh. */
  datatype Op = Update(p: Platform, again: bool) | Refresh(p: Platform) | List | Create

  function OpPlatform(op: Op): Platform {
    match op
    case Update(p, _) => p
    case Refresh(p) => p
    case List => YouTube
    case Create => Facebook
  }

  const MAX_BACKOFFS: nat := 2

  /** A number of backoff resends already used. */
  type Backoffs = n: nat | n <= MAX_BACKOFFS

  function ClassifyStatus(http: int): Outcome {
    if 200 <= http < 300 then Success
    else if http == 400 then BadRequest
    else if http == 401 then AuthRequired
    else if http == 403 then Forbidden
    else if http == 404 then NotFound
    else if http == 409 then Conflict
    else if http == 429 then RateLimited
    else if 500 <= http < 600 then ServerRetry
    else NetworkError
  }

  function FbCode(r: Reply): int {
    if r.code == 0 then r.sub
    else if r.code == 100 && r.sub == 33 then 33
    else r.code
  }

  function ClassifyFb(http: int, code: int): Outcome {
    if code == 1363120 || code == 1363144 || code == 10 then Forbidden
    else if code == 190 then AuthRequired
    else if code == 613 || code == 4 || code == 17 then RateLimited
    else if code == 33 then NotFound
    else ClassifyStatus(http)
  }

  predicate HasEligibilityText(code: int) {
    code in {1363120, 1363144, 10, 33, 100, 190}
  }

  function UpdateOutcome(p: Platform, r: Reply): Outcome {
    if r.netFail then NetworkError
    else if p == Facebook then ClassifyFb(r.http, FbCode(r))
    else ClassifyStatus(r.http)
  }

  predicate Backoffable(oc: Outcome) {
    oc == RateLimited || oc == ServerRetry
  }

  function UpdateVerdict(p: Platform, r: Reply): Verdict {
    var oc := UpdateOutcome(p, r);
    Verdict(p, oc == Success,
            if p == Facebook && !r.netFail && HasEligibilityText(FbCode(r))
            then Eligibility(FbCode(r)) else Plain(oc))
  }

  function ListOutcome(r: Reply): Outcome {
    if r.netFail then NetworkError else ClassifyStatus(r.http)
  }

  /** The result of creating a Facebook video on demand. */
  function CreateVerdict(r: Reply): Verdict {
    if r.netFail || r.http != 200 then
      if r.keyError then Verdict(Facebook, false, PersistentKey)
      else Verdict(Facebook, false,
                   if HasEligibilityText(FbCode(r)) then Eligibility(FbCode(r))
                   else Plain(ClassifyFb(r.http, FbCode(r))))
    else if !r.hasId then Verdict(Facebook, false, Plain(ServerRetry))
    else Verdict(Facebook, true, Plain(Success))
  }

  /** What a platform knows on its own when its turn comes. */
  datatype Local = Local(authorized: bool, refreshable: bool, ready: bool, titleValid: bool)

  datatype Budget = Budget(retried: bool, backoffs: Backoffs)

  const FRESH := Budget(false, 0)

  datatype Plan = Plan(ops: seq<Op>, verdict: Verdict)

  function After(op: Op, rest: Plan): Plan {
    Plan([op] + rest.ops, rest.verdict)
  }

  /** `env(p, n)` is the answer to the n-th request made for platform `p`. */
  type Env = (Platform, nat) -> Reply

  /** The platform's turn starts, or resumes after a backoff delay. */
  function Start(p: Platform, l: Local, b: Budget, env: Env, n: nat): Plan
    decreases !l.ready, MAX_BACKOFFS - b.backoffs, !b.retried, 1
  {
    if !l.authorized then Plan([], Verdict(p, false, Plain(AuthRequired)))
    else if p == YouTube && !l.ready then After(List, AwaitList(l, env, n))
    else if p == Facebook && !l.ready then
      if !l.titleValid then Plan([], Verdict(p, false, NeedTitle))
      else Plan([Create], CreateVerdict(env(Facebook, n)))
    else After(Update(p, false), AwaitUpdate(p, l, b, env, n, false))
  }

  /** An update is in flight. */
  function AwaitUpdate(p: Platform, l: Local, b: Budget, env: Env, n: nat, again: bool): Plan
    decreases !l.ready, MAX_BACKOFFS - b.backoffs, !b.retried, 0
  {
    var r := env(p, n);
    var oc := UpdateOutcome(p, r);
    if p != Facebook && oc == AuthRequired && !b.retried && l.refreshable && !again then
      After(Refresh(p), AwaitRefresh(p, l, b.(retried := true), env, n + 1))
    else if Backoffable(oc) && b.backoffs < MAX_BACKOFFS then
      Start(p, l, b.(backoffs := b.backoffs + 1), env, n + 1)
    else
      Plan([], UpdateVerdict(p, r))
  }

  /** A token refresh is in flight. */
  function AwaitRefresh(p: Platform, l: Local, b: Budget, env: Env, n: nat): Plan
    decreases !l.ready, MAX_BACKOFFS - b.backoffs, !b.retried, 1
  {
    var r := env(p, n);
    if !r.netFail && r.http == 200 then
      After(Update(p, true), AwaitUpdate(p, AfterRefresh(p, l, r), b, env, n + 1, true))
    else
      Plan([], Verdict(p, false, Plain(AuthRequired)))
  }

  /** Twitch and Kick replace the stored refresh token by whatever the answer carried. */
  function AfterRefresh(p: Platform, l: Local, r: Reply): Local {
    if p == YouTube then l else l.(refreshable := r.rotated)
  }

  /** The broadcast listing is in flight. */
  function AwaitList(l: Local, env: Env, n: nat): Plan
    requires !l.ready
    decreases !l.ready, 0, false, 0
  {
    var r := env(YouTube, n);
    if r.netFail || r.http != 200 then Plan([], Verdict(YouTube, false, Plain(ListOutcome(r))))
    else if r.items == 0 then Plan([], Verdict(YouTube, false, Plain(NotFound)))
    else Start(YouTube, l.(ready := true), FRESH, env, n + 1)
  }

  // ---------------------------------------------------------------- cost and honesty

  function CountUpdates(ops: seq<Op>): nat {
    if ops == [] then 0 else (if ops[0].Update? then 1 else 0) + CountUpdates(ops[1..])
  }

  function CountRefreshes(ops: seq<Op>): nat {
    if ops == [] then 0 else (if ops[0].Refresh? then 1 else 0) + CountRefreshes(ops[1..])
  }

  function CountSetups(ops: seq<Op>): nat {
    if ops == [] then 0 else (if ops[0].List? || ops[0].Create? then 1 else 0) + CountSetups(ops[1..])
  }

  /** `ops` costs at most the given numbers of updates, refreshes and listings/creations. */
  predicate Costs(ops: seq<Op>, updates: int, refreshes: int, setups: int) {
    CountUpdates(ops) <= updates && CountRefreshes(ops) <= refreshes && CountSetups(ops) <= setups
  }

  function Left(b: Budget): int {
    MAX_BACKOFFS - b.backoffs + (if b.retried then 0 else 1)
  }

  function RefreshLeft(b: Budget): int {
    if b.retried then 0 else 1
  }

  lemma AfterCosts(op: Op, rest: Plan, u: int, f: int, s: int)
    requires Costs(rest.ops, u, f, s)
    ensures op.Update? ==> Costs(After(op, rest).ops, u + 1, f, s)
    ensures op.Refresh? ==> Costs(After(op, rest).ops, u, f + 1, s)
    ensures op.List? ==> Costs(After(op, rest).ops, u, f, s + 1)
  {
    var ops := After(op, rest).ops;
    assert ops[0] == op && ops[1..] == rest.ops;
  }

  lemma {:induction false} UpdateCosts(p: Platform, l: Local, b: Budget, env: Env, n: nat, again: bool)
    requires l.ready || p == Twitch || p == Kick
    ensures Costs(AwaitUpdate(p, l, b, env, n, again).ops, Left(b), RefreshLeft(b), 0)
    decreases MAX_BACKOFFS - b.backoffs, !b.retried, 0
  {
    var oc := UpdateOutcome(p, env(p, n));
    if p != Facebook && oc == AuthRequired && !b.retried && l.refreshable && !again {
      var b' := b.(retried := true);
      var r := env(p, n + 1);
      if !r.netFail && r.http == 200 {
        UpdateCosts(p, AfterRefresh(p, l, r), b', env, n + 2, true);
        AfterCosts(Update(p, true), AwaitUpdate(p, AfterRefresh(p, l, r), b', env, n + 2, true), Left(b'), 0, 0);
      }
      AfterCosts(Refresh(p), AwaitRefresh(p, l, b', env, n + 1), Left(b), 0, 0);
    } else if Backoffable(oc) && b.backoffs < MAX_BACKOFFS {
      StartReadyCosts(p, l, b.(backoffs := b.backoffs + 1), env, n + 1);
    }
  }

  lemma {:induction false} StartReadyCosts(p: Platform, l: Local, b: Budget, env: Env, n: nat)
    requires l.ready || p == Twitch || p == Kick
    ensures Costs(Start(p, l, b, env, n).ops, 1 + Left(b), RefreshLeft(b), 0)
    decreases MAX_BACKOFFS - b.backoffs, !b.retried, 1
  {
    if l.authorized {
      UpdateCosts(p, l, b, env, n, false);
      AfterCosts(Update(p, false), AwaitUpdate(p, l, b, env, n, false), Left(b), RefreshLeft(b), 0);
    }
  }

  /**
  Whatever a platform is answered, its whole turn costs at most four updates (one, one
  after a refresh, two after backoffs), one refresh and one listing or creation.
  */
  lemma BoundedCost(p: Platform, l: Local, env: Env, n: nat)
    ensures Costs(Start(p, l, FRESH, env, n).ops, 4, 1, 1)
    ensures p == Facebook ==> CountRefreshes(Start(p, l, FRESH, env, n).ops) == 0
    ensures p != YouTube ==> List !in Start(p, l, FRESH, env, n).ops
  {
    if l.ready || p == Twitch || p == Kick {
      StartReadyCosts(p, l, FRESH, env, n);
    } else if l.authorized && p == YouTube {
      var r := env(YouTube, n);
      if !(r.netFail || r.http != 200 || r.items == 0) {
        StartReadyCosts(YouTube, l.(ready := true), FRESH, env, n + 1);
      }
      AfterCosts(List, AwaitList(l, env, n), 4, 1, 0);
    } else if l.authorized && l.titleValid {
      assert [Create][1..] == [];
    }
    OnlyOwnOps(p, l, FRESH, env, n);
    if p == Facebook {
      NoRefreshIn(Start(p, l, FRESH, env, n).ops);
    }
  }

  /** Every request of a plan is about its own platform, and Facebook never refreshes. */
  ghost predicate Own(p: Platform, ops: seq<Op>) {
    forall op :: op in ops ==> OpPlatform(op) == p && !(op.Refresh? && p == Facebook)
  }

  lemma {:induction false} OnlyOwnOps(p: Platform, l: Local, b: Budget, env: Env, n: nat)
    ensures Own(p, Start(p, l, b, env, n).ops)
    decreases !l.ready, MAX_BACKOFFS - b.backoffs, !b.retried, 1
  {
    if l.authorized {
      if p == YouTube && !l.ready {
        var r := env(YouTube, n);
        if !(r.netFail || r.http != 200 || r.items == 0) {
          OnlyOwnOps(YouTube, l.(ready := true), FRESH, env, n + 1);
        }
      } else if p == Facebook && !l.ready {
      } else {
        OnlyOwnAwait(p, l, b, env, n, false);
      }
    }
  }

  lemma {:induction false} OnlyOwnAwait(p: Platform, l: Local, b: Budget, env: Env, n: nat, again: bool)
    ensures Own(p, AwaitUpdate(p, l, b, env, n, again).ops)
    decreases !l.ready, MAX_BACKOFFS - b.backoffs, !b.retried, 0
  {
    var oc := UpdateOutcome(p, env(p, n));
    if p != Facebook && oc == AuthRequired && !b.retried && l.refreshable && !again {
      var r := env(p, n + 1);
      if !r.netFail && r.http == 200 {
        OnlyOwnAwait(p, AfterRefresh(p, l, r), b.(retried := true), env, n + 2, true);
      }
    } else if Backoffable(oc) && b.backoffs < MAX_BACKOFFS {
      OnlyOwnOps(p, l, b.(backoffs := b.backoffs + 1), env, n + 1);
    }
  }

  lemma {:induction false} NoRefreshIn(ops: seq<Op>)
    requires forall op :: op in ops ==> !op.Refresh?
    ensures CountRefreshes(ops) == 0
  {
    if ops != [] {
      NoRefreshIn(ops[1..]);
    }
  }

  /** The two answer streams agree on everything said to platform `p`. */
  ghost predicate SameReplies(p: Platform, env: Env, env': Env) {
    forall k: nat :: env(p, k) == env'(p, k)
  }

  /** A platform's turn is determined by its own answers alone. */
  lemma {:induction false} OwnRepliesDecide(p: Platform, l: Local, b: Budget, env: Env, env': Env, n: nat)
    requires SameReplies(p, env, env')
    ensures Start(p, l, b, env, n) == Start(p, l, b, env', n)
    decreases !l.ready, MAX_BACKOFFS - b.backoffs, !b.retried, 1
  {
    if l.authorized {
      if p == YouTube && !l.ready {
        assert env(p, n) == env'(p, n);
        if env(p, n).items != 0 {
          OwnRepliesDecide(p, l.(ready := true), FRESH, env, env', n + 1);
        }
      } else if p == Facebook && !l.ready {
        assert env(p, n) == env'(p, n);
      } else {
        OwnRepliesAwait(p, l, b, env, env', n, false);
      }
    }
  }

  lemma {:induction false} OwnRepliesAwait(p: Platform, l: Local, b: Budget, env: Env, env': Env, n: nat, again: bool)
    requires SameReplies(p, env, env')
    ensures AwaitUpdate(p, l, b, env, n, again) == AwaitUpdate(p, l, b, env', n, again)
    decreases !l.ready, MAX_BACKOFFS - b.backoffs, !b.retried, 0
  {
    var r := env(p, n);
    assert r == env'(p, n);
    var oc := UpdateOutcome(p, r);
    if p != Facebook && oc == AuthRequired && !b.retried && l.refreshable && !again {
      var r' := env(p, n + 1);
      assert r' == env'(p, n + 1);
      OwnRepliesAwait(p, AfterRefresh(p, l, r'), b.(retried := true), env, env', n + 2, true);
    } else if Backoffable(oc) && b.backoffs < MAX_BACKOFFS {
      OwnRepliesDecide(p, l, b.(backoffs := b.backoffs + 1), env, env', n + 1);
    }
  }

  // ---------------------------------------------------------------- what an answer means

  /** The Graph error the answer reports: its code, its subcode if there is no code, 33 for a web object. */
  predicate Reports(r: Reply, code: int) {
    if r.code == 0 then r.sub == code
    else if r.code == 100 && r.sub == 33 then code == 33
    else r.code == code
  }

  /** An error of its own, whatever the status says. */
  predicate GraphError(r: Reply) {
    exists code :: code in {1363120, 1363144, 10, 190, 613, 4, 17, 33} && Reports(r, code)
  }

  /** The platform made the change. */
  predicate Accepted(p: Platform, r: Reply) {
    !r.netFail && 200 <= r.http < 300 && (p == Facebook ==> !GraphError(r))
  }

  /** The platform no longer accepts the token. */
  predicate Refused(p: Platform, r: Reply) {
    !r.netFail && if p == Facebook && GraphError(r) then Reports(r, 190) else r.http == 401
  }

  /** The platform asks to be left alone for a while. */
  predicate Busy(p: Platform, r: Reply) {
    !r.netFail && if p == Facebook && GraphError(r) then Reports(r, 613) || Reports(r, 4) || Reports(r, 17)
                  else r.http == 429 || 500 <= r.http < 600
  }

  lemma CodeReported(r: Reply, code: int)
    ensures FbCode(r) == code <==> Reports(r, code)
  {
  }

  /** What counts as success, as a refused token and as worth a backoff, on raw answers. */
  lemma AnswerMeans(p: Platform, r: Reply)
    ensures UpdateOutcome(p, r) == Success <==> Accepted(p, r)
    ensures UpdateOutcome(p, r) == AuthRequired <==> Refused(p, r)
    ensures Backoffable(UpdateOutcome(p, r)) <==> Busy(p, r)
    ensures UpdateVerdict(p, r).ok <==> Accepted(p, r)
  {
    var c := FbCode(r);
    CodeReported(r, c);
    forall code
      ensures Reports(r, code) <==> code == c
    {
      CodeReported(r, code);
    }
  }

  lemma SuccessMeans(p: Platform, r: Reply)
    ensures UpdateOutcome(p, r) == Success <==> Accepted(p, r)
  {
    AnswerMeans(p, r);
  }

  /** The text shown for a platform other than Facebook, by status. */
  lemma StatusTexts(p: Platform, r: Reply)
    requires p != Facebook
    ensures var m := UpdateVerdict(p, r).message;
            if r.netFail then m == Plain(NetworkError)
            else && (r.http == 400 <==> m == Plain(BadRequest)) && (r.http == 401 <==> m == Plain(AuthRequired))
                 && (r.http == 403 <==> m == Plain(Forbidden)) && (r.http == 404 <==> m == Plain(NotFound))
                 && (r.http == 409 <==> m == Plain(Conflict)) && (r.http == 429 <==> m == Plain(RateLimited))
                 && (500 <= r.http < 600 <==> m == Plain(ServerRetry)) && (200 <= r.http < 300 <==> m == Plain(Success))
  {
  }

  /** Facebook's errors have texts of their own. */
  lemma FacebookTexts(r: Reply, code: int)
    requires Reports(r, code)
    ensures UpdateVerdict(Facebook, r).message == Eligibility(code)
       <==> !r.netFail && code in {1363120, 1363144, 10, 33, 100, 190}
  {
    CodeReported(r, code);
  }

  /** The text shown for a creation: the persistent key's, the Graph error's own, or the outcome's. */
  lemma CreationTexts(r: Reply, code: int)
    requires Reports(r, code)
    ensures var v := CreateVerdict(r);
            var answered := !r.netFail && r.http == 200;
            && (v.ok <==> answered && r.hasId)
            && (v.message == PersistentKey <==> !answered && r.keyError)
            && (v.message == Eligibility(code)
                <==> !answered && !r.keyError && code in {1363120, 1363144, 10, 33, 100, 190})
            && (answered && !r.hasId ==> v.message == Plain(ServerRetry))
            && (answered && r.hasId ==> v.message == Plain(Success))
  {
    CodeReported(r, code);
  }

  // ---------------------------------------------------------------- which request is next

  /** Nothing stands between the platform and its update. */
  predicate Ready(p: Platform, l: Local) {
    l.authorized && (p == YouTube || p == Facebook ==> l.ready)
  }

  /** The first request of a turn: none without an account; a missing listing or creation; else the update. */
  lemma FirstRequest(p: Platform, l: Local, b: Budget, env: Env, n: nat)
    ensures var plan := Start(p, l, b, env, n);
            && (plan.ops != [] && plan.ops[0] == Update(p, false) <==> Ready(p, l))
            && (plan.ops != [] && plan.ops[0] == List <==> l.authorized && p == YouTube && !l.ready)
            && (plan.ops != [] && plan.ops[0] == Create <==> l.authorized && p == Facebook && !l.ready && l.titleValid)
            && (plan.ops == [] <==> !l.authorized || (p == Facebook && !l.ready && !l.titleValid))
            && (plan.ops == [] ==> !plan.verdict.ok)
  {
  }

  /**
  After an update: a refused token is refreshed, once, if there is a refresh token; a busy
  platform is sent the update again, twice at most; anything else settles the turn, and
  well exactly if the update was accepted.
  */
  lemma NextRequest(p: Platform, l: Local, b: Budget, env: Env, n: nat, again: bool)
    requires Ready(p, l)
    ensures var r, plan := env(p, n), AwaitUpdate(p, l, b, env, n, again);
            var refreshes := p != Facebook && Refused(p, r) && l.refreshable && !b.retried && !again;
            var resends := Busy(p, r) && b.backoffs < 2;
            && (plan.ops != [] && plan.ops[0] == Refresh(p) <==> refreshes)
            && (plan.ops != [] && plan.ops[0] == Update(p, false) <==> resends)
            && (plan.ops == [] <==> !refreshes && !resends)
            && (plan.ops == [] ==> (plan.verdict.ok <==> Accepted(p, r)))
  {
    AnswerMeans(p, env(p, n));
  }

  /** A refresh answered with 200 is followed by the update, anything else by a failure. */
  lemma NextAfterRefresh(p: Platform, l: Local, b: Budget, env: Env, n: nat)
    ensures var r, plan := env(p, n), AwaitRefresh(p, l, b, env, n);
            if !r.netFail && r.http == 200 then plan.ops != [] && plan.ops[0] == Update(p, true)
            else plan == Plan([], Verdict(p, false, Plain(AuthRequired)))
  {
  }

  /** A listing with a broadcast is followed by the update, anything else by a failure. */
  lemma NextAfterListing(l: Local, env: Env, n: nat)
    requires l.authorized && !l.ready
    ensures var r, plan := env(YouTube, n), AwaitList(l, env, n);
            if !r.netFail && r.http == 200 && r.items > 0 then plan.ops != [] && plan.ops[0] == Update(YouTube, false)
            else && plan.ops == [] && !plan.verdict.ok
                 && (r.netFail ==> plan.verdict.message == Plain(NetworkError))
                 && (!r.netFail && r.http == 401 ==> plan.verdict.message == Plain(AuthRequired))
                 && (!r.netFail && r.http == 429 ==> plan.verdict.message == Plain(RateLimited))
                 && (!r.netFail && r.http == 200 ==> plan.verdict.message == Plain(NotFound))
  {
  }

  // ---------------------------------------------------------------- honesty

  /** Did the answer to this request bring the change about? */
  predicate Achieved(op: Op, r: Reply) {
    match op
    case Update(p, _) => Accepted(p, r)
    case Create => !r.netFail && r.http == 200 && r.hasId
    case Refresh(_) => false
    case List => false
  }

  /** Was the last of these requests, the first of which is the n-th for `p`, answered with success? */
  predicate LastAchieved(p: Platform, ops: seq<Op>, env: Env, n: nat) {
    ops != [] && Achieved(ops[|ops| - 1], env(p, n + |ops| - 1))
  }

  lemma {:induction false} LastAfter(p: Platform, op: Op, ops: seq<Op>, env: Env, n: nat)
    ensures LastAchieved(p, [op] + ops, env, n)
         == if ops == [] then Achieved(op, env(p, n)) else LastAchieved(p, ops, env, n + 1)
  {
    var all := [op] + ops;
    if ops == [] {
      assert all[|all| - 1] == op;
    } else {
      assert all[|all| - 1] == ops[|ops| - 1];
      assert n + |all| - 1 == n + 1 + |ops| - 1;
    }
  }

  /**
  A result is reported as good exactly when the last request of the turn was answered
  with success: a good result is never claimed for a change that was refused, and a
  change that went through on the last try is never shown as failed.
  */
  lemma {:induction false} HonestVerdict(p: Platform, l: Local, b: Budget, env: Env, n: nat)
    ensures var plan := Start(p, l, b, env, n);
            plan.verdict.platform == p && (plan.verdict.ok <==> LastAchieved(p, plan.ops, env, n))
    decreases !l.ready, MAX_BACKOFFS - b.backoffs, !b.retried, 1
  {
    if l.authorized {
      if p == YouTube && !l.ready {
        var r := env(YouTube, n);
        var rest := AwaitList(l, env, n);
        LastAfter(p, List, rest.ops, env, n);
        if !(r.netFail || r.http != 200 || r.items == 0) {
          HonestVerdict(YouTube, l.(ready := true), FRESH, env, n + 1);
        }
      } else if p == Facebook && !l.ready {
        LastAfter(p, Create, [], env, n);
        assert [Create] + [] == [Create];
      } else {
        HonestAwait(p, l, b, env, n, false);
      }
    }
  }

  /** The same once an update is in flight: it is the n-th request, the rest of the plan follows. */
  lemma {:induction false} HonestAwait(p: Platform, l: Local, b: Budget, env: Env, n: nat, again: bool)
    ensures var plan := AwaitUpdate(p, l, b, env, n, again);
            && plan.verdict.platform == p
            && (plan.verdict.ok <==> LastAchieved(p, [Update(p, again)] + plan.ops, env, n))
    decreases !l.ready, MAX_BACKOFFS - b.backoffs, !b.retried, 0
  {
    var oc := UpdateOutcome(p, env(p, n));
    var plan := AwaitUpdate(p, l, b, env, n, again);
    SuccessMeans(p, env(p, n));
    LastAfter(p, Update(p, again), plan.ops, env, n);
    if p != Facebook && oc == AuthRequired && !b.retried && l.refreshable && !again {
      var b' := b.(retried := true);
      HonestRefresh(p, l, b', env, n + 1);
      assert plan == After(Refresh(p), AwaitRefresh(p, l, b', env, n + 1));
    } else if Backoffable(oc) && b.backoffs < MAX_BACKOFFS {
      HonestVerdict(p, l, b.(backoffs := b.backoffs + 1), env, n + 1);
    }
  }

  /** The same once a token refresh is in flight. */
  lemma {:induction false} HonestRefresh(p: Platform, l: Local, b: Budget, env: Env, n: nat)
    ensures var plan := AwaitRefresh(p, l, b, env, n);
            && plan.verdict.platform == p
            && (plan.verdict.ok <==> LastAchieved(p, [Refresh(p)] + plan.ops, env, n))
    decreases !l.ready, MAX_BACKOFFS - b.backoffs, !b.retried, 1
  {
    var r := env(p, n);
    var plan := AwaitRefresh(p, l, b, env, n);
    LastAfter(p, Refresh(p), plan.ops, env, n);
    if !r.netFail && r.http == 200 {
      HonestAwait(p, AfterRefresh(p, l, r), b, env, n + 1, true);
    }
  }
}
