/**
The dock's Apply machine in Independent mode: one queue and one set of retry flags shared
by all platforms, advanced by network replies and by the backoff timer.

`Due` is what the run will have sent and shown when it is over.  Every handler leaves it
as it was, so the run as a whole yields one independent plan per queued platform, in
queue order.
*/
module ApplyDock {
  import opened ApplyPlan

  /** What the dock is waiting for. */
  datatype Pending = Nothing | Awaiting(op: Op) | Timer

  /** Accounts, selected broadcast, selected live video and title, as one value. */
  datatype World = World(connected: set<Platform>, refreshable: set<Platform>,
                         broadcast: bool, liveVideo: bool, titleValid: bool)

  function LocalOf(w: World, p: Platform): Local {
    Local(p in w.connected, p in w.refreshable,
          match p
          case YouTube => w.broadcast
          case Facebook => w.liveVideo
          case _ => true,
          w.titleValid)
  }

  /** Requests sent and results shown. */
  datatype Record = Record(ops: seq<Op>, verdicts: seq<Verdict>)

  function Join(a: Record, b: Record): Record {
    Record(a.ops + b.ops, a.verdicts + b.verdicts)
  }

  function Of(plan: Plan): Record {
    Record(plan.ops, [plan.verdict])
  }

  const EMPTY := Record([], [])

  lemma JoinAssociative(a: Record, b: Record, c: Record)
    ensures Join(Join(a, b), c) == Join(a, Join(b, c))
  {
    assert (a.ops + b.ops) + c.ops == a.ops + (b.ops + c.ops);
    assert (a.verdicts + b.verdicts) + c.verdicts == a.verdicts + (b.verdicts + c.verdicts);
  }

  /** Each platform of `ps` run on its own, with a full budget, one after the other. */
  function Independent(ps: seq<Platform>, w: World, env: Env, seen: multiset<Platform>): Record {
    if ps == [] then EMPTY
    else Join(Of(Start(ps[0], LocalOf(w, ps[0]), FRESH, env, seen[ps[0]])),
              Independent(ps[1..], w, env, seen))
  }

  lemma {:induction false} IndependentFrame(ps: seq<Platform>, w: World, w': World, env: Env,
                                            seen: multiset<Platform>, seen': multiset<Platform>)
    requires forall p :: p in ps ==> LocalOf(w, p) == LocalOf(w', p) && seen[p] == seen'[p]
    ensures Independent(ps, w, env, seen) == Independent(ps, w', env, seen')
  {
    if ps != [] {
      assert ps[0] in ps;
      assert forall p :: p in ps[1..] ==> p in ps;
      IndependentFrame(ps[1..], w, w', env, seen, seen');
    }
  }

  ghost predicate Distinct(ps: seq<Platform>) {
    forall i, j :: 0 <= i < j < |ps| ==> ps[i] != ps[j]
  }

  lemma {:induction false} DistinctFront(p: Platform, ps: seq<Platform>)
    requires Distinct(ps) && p !in ps
    ensures Distinct([p] + ps) && ([p] + ps)[1..] == ps
  {
    forall i, j | 0 <= i < j < 1 + |ps| ensures ([p] + ps)[i] != ([p] + ps)[j] {
      assert ([p] + ps)[j] == ps[j - 1];
    }
  }

  /** The dock's Apply fields, as one value; `answered` counts the replies given per platform. */
  datatype State = State(queue: seq<Platform>, retried: bool, backoffCount: Backoffs, backoffResume: bool,
                         applyAfterList: bool, createPending: bool, world: World, buttonEnabled: bool,
                         pending: Pending, sent: seq<Op>, results: seq<Verdict>,
                         answered: multiset<Platform>)
  {
    ghost predicate Valid() {
      && Distinct(queue)
      && match pending
         case Nothing => !applyAfterList && !createPending && (backoffResume ==> queue != [])
         case Timer => !applyAfterList && !createPending && backoffResume && queue != [] && Sendable(queue[0])
         case Awaiting(op) =>
           && !backoffResume
           && (applyAfterList <==> op == List) && (createPending <==> op == Create)
           && match op
              case List => queue != [] && queue[0] == YouTube && !world.broadcast
              case Create => queue != [] && queue[0] == Facebook
              case Refresh(p) => p !in queue && Sendable(p) && p != Facebook && retried
              case Update(p, _) => p !in queue && Sendable(p)
    }

    /** Nothing stands between `p` and its update. */
    predicate Sendable(p: Platform) {
      Here(p).authorized && (p == YouTube || p == Facebook ==> Here(p).ready)
    }

    /** What the platform whose turn it is knows. */
    function Here(p: Platform): Local {
      LocalOf(world, p)
    }

    /** The budget the platform at the head of the queue will start with. */
    function HeadBudget(): Budget {
      if backoffResume then Budget(retried, backoffCount) else FRESH
    }

    /** The platforms behind the one whose turn it is. */
    function Behind(): seq<Platform> {
      match pending
      case Awaiting(Update(_, _)) => queue
      case Awaiting(Refresh(_)) => queue
      case _ => if queue == [] then [] else queue[1..]
    }

    /** What is left of the current platform's own plan. */
    function Current(env: Env): Record
    {
      match pending
      case Awaiting(Update(p, again)) =>
        Of(AwaitUpdate(p, Here(p), Budget(retried, backoffCount), env, answered[p], again))
      case Awaiting(Refresh(p)) =>
        Of(AwaitRefresh(p, Here(p), Budget(retried, backoffCount), env, answered[p]))
      case Awaiting(List) => Of(AwaitList(Here(YouTube).(ready := false), env, answered[YouTube]))
      case Awaiting(Create) => Record([], [CreateVerdict(env(Facebook, answered[Facebook]))])
      case _ =>
        if queue == [] then EMPTY
        else Of(Start(queue[0], Here(queue[0]), HeadBudget(), env, answered[queue[0]]))
    }

    /** Everything still to come. */
    function ToCome(env: Env): Record
    {
      Join(Current(env), Independent(Behind(), world, env, answered))
    }

    /** Everything the run will have sent and shown when it is over. */
    function Due(env: Env): Record
    {
      Join(Record(sent, results), ToCome(env))
    }

    /** Twice the requests still to come, plus one while a reply is outstanding. */
    function Measure(env: Env): nat
    {
      2 * |ToCome(env).ops| + if pending.Awaiting? then 1 else 0
    }
  }

  // ------------------------------------------------------------ the machine, as a function

  /** The state once the head of the queue has been taken and its flags settled. */
  function Taken(s: State): State
    requires s.queue != []
  {
    s.(queue := s.queue[1..], backoffResume := false, pending := Nothing,
       retried := s.HeadBudget().retried, backoffCount := s.HeadBudget().backoffs)
  }

  function Show(s: State, v: Verdict): State {
    s.(results := s.results + [v])
  }

  function Ask(s: State, op: Op): State {
    s.(pending := Awaiting(op), sent := s.sent + [op])
  }

  /** The turn of the platform at the head: its first request is sent, or it is settled at once. */
  function HeadTurn(s: State): (t: State)
    requires s.queue != []
    ensures t.pending == Nothing ==> |t.queue| < |s.queue|
  {
    var p := s.queue[0];
    var t := Taken(s);
    if p !in s.world.connected then Show(t, Verdict(p, false, Plain(AuthRequired)))
    else if p == YouTube && !s.world.broadcast then Ask(t.(queue := s.queue, applyAfterList := true), List)
    else if p == Facebook && !s.world.liveVideo then
      if !s.world.titleValid then Show(t, Verdict(p, false, NeedTitle))
      else Ask(t.(queue := s.queue, createPending := true), Create)
    else Ask(t, Update(p, false))
  }

  /** Platforms take their turn until one waits for a reply or the queue is empty. */
  function Begin(s: State): State
    decreases |s.queue|
  {
    if s.queue == [] then s.(pending := Nothing, buttonEnabled := true)
    else
      var t := HeadTurn(s);
      if t.pending == Nothing then Begin(t) else t
  }

  function Disconnect(s: State, p: Platform): State {
    s.(world := s.world.(connected := s.world.connected - {p}))
  }

  /** The answer to an update. */
  function UpdateReplied(s: State, p: Platform, again: bool, r: Reply): State {
    var oc := UpdateOutcome(p, r);
    if p != Facebook && oc == AuthRequired && !s.retried && p in s.world.refreshable && !again then
      Ask(s.(retried := true), Refresh(p))
    else if Backoffable(oc) && s.backoffCount < MAX_BACKOFFS then
      s.(backoffCount := s.backoffCount + 1, backoffResume := true, queue := [p] + s.queue, pending := Timer)
    else
      Begin(UpdateShown(s, p, r))
  }

  /** The result of an update; a refused token also marks the account as disconnected. */
  function UpdateShown(s: State, p: Platform, r: Reply): State {
    Show((if UpdateOutcome(p, r) == AuthRequired then Disconnect(s, p) else s).(pending := Nothing),
         UpdateVerdict(p, r))
  }

  /** Which accounts still hold a refresh token after `p` was answered. */
  function Rotated(refreshable: set<Platform>, p: Platform, rotated: bool): set<Platform> {
    if p == YouTube then refreshable
    else if rotated then refreshable + {p}
    else refreshable - {p}
  }

  /** The answer to a token refresh. */
  function RefreshReplied(s: State, p: Platform, r: Reply): State {
    if !r.netFail && r.http == 200 then
      Ask(s.(world := s.world.(refreshable := Rotated(s.world.refreshable, p, r.rotated))), Update(p, true))
    else
      Begin(Show(Disconnect(s, p).(pending := Nothing), Verdict(p, false, Plain(AuthRequired))))
  }

  /** The answer to the broadcast listing that an Apply run asked for. */
  function ListReplied(s: State, r: Reply): State
    requires s.queue != []
  {
    var t := s.(applyAfterList := false, pending := Nothing);
    if r.netFail || r.http != 200 then
      Begin(Show(t.(queue := s.queue[1..]), Verdict(s.queue[0], false, Plain(ListOutcome(r)))))
    else
      var u := t.(world := s.world.(broadcast := r.items != 0));
      if r.items == 0 then Begin(Show(u.(queue := s.queue[1..]), Verdict(s.queue[0], false, Plain(NotFound))))
      else Begin(u)
  }

  /** The answer to the creation that an Apply run asked for. */
  function CreateReplied(s: State, r: Reply): State {
    var v := CreateVerdict(r);
    var t := s.(createPending := false, pending := Nothing,
                queue := if s.queue != [] && s.queue[0] == Facebook then s.queue[1..] else s.queue,
                world := if v.ok then s.world.(liveVideo := true) else s.world);
    Begin(Show(t, v))
  }

  /** One reply. */
  function Receive(s: State, r: Reply): State
    requires s.Valid() && s.pending.Awaiting?
  {
    var t := s.(answered := s.answered + multiset{OpPlatform(s.pending.op)});
    match s.pending.op
    case Update(p, again) => UpdateReplied(t, p, again, r)
    case Refresh(p) => RefreshReplied(t, p, r)
    case List => ListReplied(t, r)
    case Create => CreateReplied(t, r)
  }

  // ------------------------------------------------------------ what each step conserves

  /** A step that sends and shows `delta`, and leaves the rest to come, keeps what is due. */
  lemma Conserved(s: State, s': State, delta: Record, env: Env)
    requires Join(Record(s.sent, s.results), delta) == Record(s'.sent, s'.results)
    requires s.ToCome(env) == Join(delta, s'.ToCome(env))
    ensures s'.Due(env) == s.Due(env)
    ensures |s.ToCome(env).ops| == |delta.ops| + |s'.ToCome(env).ops|
  {
    JoinAssociative(Record(s.sent, s.results), delta, s'.ToCome(env));
  }

  /** Between two platforms, what is to come is one fresh plan per queued platform. */
  lemma FreshToCome(s: State, env: Env)
    requires s.pending == Nothing && !s.backoffResume
    ensures s.ToCome(env) == Independent(s.queue, s.world, env, s.answered)
  {
    if s.queue == [] {
      assert Join(EMPTY, EMPTY) == EMPTY;
    }
  }

  /** The head of the queue is settled without any request. */
  lemma SettlesHead(s: State, s': State, env: Env)
    requires s.Valid() && (s.pending == Nothing || s.pending == Timer) && s.queue != []
    requires var plan := Start(s.queue[0], s.Here(s.queue[0]), s.HeadBudget(), env, s.answered[s.queue[0]]);
             plan.ops == [] && s' == Taken(s).(results := s.results + [plan.verdict])
    ensures s'.Valid() && s'.Due(env) == s.Due(env) && s'.Measure(env) <= s.Measure(env)
  {
    FreshToCome(s', env);
    var plan := Start(s.queue[0], s.Here(s.queue[0]), s.HeadBudget(), env, s.answered[s.queue[0]]);
    assert s.Current(env) == Of(plan);
    Conserved(s, s', Of(plan), env);
  }

  /** The head of the queue sends its first request; a listing or creation leaves it queued. */
  lemma HeadSends(s: State, s': State, op: Op, env: Env)
    requires s.Valid() && (s.pending == Nothing || s.pending == Timer) && s.queue != []
    requires var p := s.queue[0]; var l := s.Here(p);
             && l.authorized
             && match op
                case Update(q, again) => q == p && !again && s.Sendable(p)
                case List => p == YouTube && !l.ready
                case Create => p == Facebook && !l.ready && l.titleValid
                case Refresh(_) => false
    requires s' == Taken(s).(queue := if op.Update? then s.queue[1..] else s.queue,
                             applyAfterList := op == List, createPending := op == Create,
                             pending := Awaiting(op), sent := s.sent + [op])
    ensures s'.Valid() && s'.Due(env) == s.Due(env) && s'.Measure(env) < s.Measure(env)
  {
    var p := s.queue[0];
    assert s'.Behind() == s.Behind();
    var rest := Independent(s.Behind(), s.world, env, s.answered);
    assert s.Current(env) == Join(Record([op], []), s'.Current(env));
    JoinAssociative(Record([op], []), s'.Current(env), rest);
    Conserved(s, s', Record([op], []), env);
  }

  /** A reply to platform `p` makes it send `ops` and go on with its own plan. */
  lemma {:induction false} GoesOn(s: State, s': State, ops: seq<Op>, p: Platform, env: Env)
    requires p !in s.Behind()
    requires s.pending.Awaiting? && OpPlatform(s.pending.op) == p
    requires s'.answered == s.answered + multiset{p}
    requires forall q :: q != p ==> LocalOf(s'.world, q) == LocalOf(s.world, q)
    requires s'.sent == s.sent + ops && s'.results == s.results
    requires s'.Behind() == s.Behind() && s.Current(env) == Join(Record(ops, []), s'.Current(env))
    requires s'.pending.Awaiting? ==> ops != []
    ensures s'.Due(env) == s.Due(env) && s'.Measure(env) < s.Measure(env)
  {
    var rest := Independent(s.Behind(), s.world, env, s.answered);
    IndependentFrame(s.Behind(), s.world, s'.world, env, s.answered, s'.answered);
    JoinAssociative(Record(ops, []), s'.Current(env), rest);
    Conserved(s, s', Record(ops, []), env);
  }

  /** From `s` to `s'` nothing due was changed and the run came closer to its end. */
  ghost predicate Progress(s: State, s': State, env: Env) {
    s'.Valid() && s'.Due(env) == s.Due(env) && s'.Measure(env) < s.Measure(env) && Settled(s')
  }

  /** The button is enabled exactly when the run is over, and then the queue is empty. */
  ghost predicate Settled(s: State) {
    (s.buttonEnabled <==> s.pending == Nothing) && (s.pending == Nothing ==> s.queue == [])
  }

  /** Starting the next platform keeps what is due. */
  lemma {:induction false} BeginKeeps(s: State, env: Env)
    requires s.Valid() && s.pending == Nothing && !s.buttonEnabled
    ensures var s' := Begin(s);
            s'.Valid() && s'.Due(env) == s.Due(env) && s'.Measure(env) <= s.Measure(env) && Settled(s')
    decreases |s.queue|
  {
    if s.queue == [] {
      assert Begin(s).ToCome(env) == s.ToCome(env);
    } else {
      var p := s.queue[0];
      if p !in s.world.connected {
        var t := Show(Taken(s), Verdict(p, false, Plain(AuthRequired)));
        SettlesHead(s, t, env);
        BeginKeeps(t, env);
      } else if p == Facebook && !s.world.liveVideo && !s.world.titleValid {
        var t := Show(Taken(s), Verdict(p, false, NeedTitle));
        SettlesHead(s, t, env);
        BeginKeeps(t, env);
      } else {
        HeadSends(s, Begin(s), Begin(s).pending.op, env);
      }
    }
  }

  /** When the backoff timer fires the same platform sends its update again. */
  lemma TimerKeeps(s: State, env: Env)
    requires s.Valid() && s.pending == Timer && !s.buttonEnabled
    ensures Progress(s, Begin(s), env)
  {
    HeadSends(s, Begin(s), Update(s.queue[0], false), env);
  }

  /** Once a platform's turn is over, the next one can begin. */
  ghost predicate TurnOver(s: State, t: State, p: Platform, v: Verdict) {
    && t == s.(answered := s.answered + multiset{p}, pending := Nothing, queue := s.Behind(), applyAfterList := false,
               createPending := false, world := t.world, results := s.results + [v])
    && forall q :: q != p ==> LocalOf(t.world, q) == LocalOf(s.world, q)
  }

  lemma TurnKeepsDue(s: State, t: State, p: Platform, v: Verdict, env: Env)
    requires s.Valid() && s.pending.Awaiting? && OpPlatform(s.pending.op) == p && !s.buttonEnabled
    requires s.Current(env) == Record([], [v]) && TurnOver(s, t, p, v)
    ensures t.Valid() && t.Due(env) == s.Due(env) && t.Measure(env) < s.Measure(env)
  {
    IndependentFrame(s.Behind(), s.world, t.world, env, s.answered, t.answered);
    FreshToCome(t, env);
    Conserved(s, t, Record([], [v]), env);
  }

  /** The platform's turn ends with the verdict its own plan gives. */
  lemma TurnEnds(s: State, t: State, p: Platform, v: Verdict, env: Env)
    requires s.Valid() && s.pending.Awaiting? && OpPlatform(s.pending.op) == p && !s.buttonEnabled
    requires s.Current(env) == Record([], [v]) && TurnOver(s, t, p, v)
    ensures Progress(s, Begin(t), env)
  {
    TurnKeepsDue(s, t, p, v, env);
    BeginKeeps(t, env);
  }

  lemma UpdateKeeps(s: State, r: Reply, env: Env)
    requires s.Valid() && s.pending.Awaiting? && s.pending.op.Update? && !s.buttonEnabled
    requires r == env(s.pending.op.p, s.answered[s.pending.op.p])
    ensures Progress(s, Receive(s, r), env)
  {
    var Update(p, again) := s.pending.op;
    var oc := UpdateOutcome(p, r);
    if p != Facebook && oc == AuthRequired && !s.retried && p in s.world.refreshable && !again {
      UpdateRefreshes(s, r, env);
    } else if Backoffable(oc) && s.backoffCount < MAX_BACKOFFS {
      UpdateBacksOff(s, r, env);
    } else {
      var t := s.(answered := s.answered + multiset{p}, pending := Nothing,
                  results := s.results + [UpdateVerdict(p, r)]);
      var u := if oc == AuthRequired then Disconnect(t, p) else t;
      TurnEnds(s, u, p, UpdateVerdict(p, r), env);
    }
  }

  lemma UpdateRefreshes(s: State, r: Reply, env: Env)
    requires s.Valid() && s.pending.Awaiting? && s.pending.op.Update? && !s.buttonEnabled
    requires r == env(s.pending.op.p, s.answered[s.pending.op.p])
    requires var Update(p, again) := s.pending.op;
             p != Facebook && UpdateOutcome(p, r) == AuthRequired && !s.retried && p in s.world.refreshable && !again
    ensures Progress(s, Receive(s, r), env)
  {
    var p := s.pending.op.p;
    var s' := s.(answered := s.answered + multiset{p}, retried := true, pending := Awaiting(Refresh(p)),
                 sent := s.sent + [Refresh(p)]);
    var rest := AwaitRefresh(p, s.Here(p), Budget(true, s.backoffCount), env, s.answered[p] + 1);
    assert s'.Current(env) == Of(rest);
    assert s.Current(env) == Of(After(Refresh(p), rest));
    GoesOn(s, s', [Refresh(p)], p, env);
  }

  lemma UpdateBacksOff(s: State, r: Reply, env: Env)
    requires s.Valid() && s.pending.Awaiting? && s.pending.op.Update? && !s.buttonEnabled
    requires r == env(s.pending.op.p, s.answered[s.pending.op.p])
    requires Backoffable(UpdateOutcome(s.pending.op.p, r)) && s.backoffCount < MAX_BACKOFFS
    ensures Progress(s, Receive(s, r), env)
  {
    var p := s.pending.op.p;
    var s' := s.(answered := s.answered + multiset{p}, backoffCount := s.backoffCount + 1,
                 backoffResume := true, queue := [p] + s.queue, pending := Timer);
    assert Receive(s, r) == s';
    DistinctFront(p, s.queue);
    assert s.Current(env) == Join(EMPTY, s'.Current(env)) by {
      BackoffPlan(s, s', r, env);
    }
    GoesOn(s, s', [], p, env);
  }

  /** Waiting for the timer leaves the same plan as the answer that asked for the delay. */
  lemma BackoffPlan(s: State, s': State, r: Reply, env: Env)
    requires s.pending.Awaiting? && s.pending.op.Update?
    requires r == env(s.pending.op.p, s.answered[s.pending.op.p])
    requires Backoffable(UpdateOutcome(s.pending.op.p, r)) && s.backoffCount < MAX_BACKOFFS
    requires s' == s.(answered := s.answered + multiset{s.pending.op.p}, backoffCount := s.backoffCount + 1,
                      backoffResume := true, queue := [s.pending.op.p] + s.queue, pending := Timer)
    ensures s.Current(env) == s'.Current(env) && s.Current(env) == Join(EMPTY, s'.Current(env))
  {
    var p := s.pending.op.p;
    var rest := Start(p, s.Here(p), Budget(s.retried, s.backoffCount + 1), env, s.answered[p] + 1);
    assert AwaitUpdate(p, s.Here(p), Budget(s.retried, s.backoffCount), env, s.answered[p], s.pending.op.again) == rest;
    assert s.Current(env) == Of(rest);
  }

  lemma RefreshKeeps(s: State, r: Reply, env: Env)
    requires s.Valid() && s.pending.Awaiting? && s.pending.op.Refresh? && !s.buttonEnabled
    requires r == env(s.pending.op.p, s.answered[s.pending.op.p])
    ensures Progress(s, Receive(s, r), env)
  {
    if !r.netFail && r.http == 200 {
      Refreshed(s, r, env);
    } else {
      var p := s.pending.op.p;
      var t := s.(answered := s.answered + multiset{p});
      var v := Verdict(p, false, Plain(AuthRequired));
      TurnEnds(s, Show(Disconnect(t, p).(pending := Nothing), v), p, v, env);
    }
  }

  lemma Refreshed(s: State, r: Reply, env: Env)
    requires s.Valid() && s.pending.Awaiting? && s.pending.op.Refresh? && !s.buttonEnabled
    requires r == env(s.pending.op.p, s.answered[s.pending.op.p]) && !r.netFail && r.http == 200
    ensures Progress(s, Receive(s, r), env)
  {
    var p := s.pending.op.p;
    var s' := RefreshReplied(s.(answered := s.answered + multiset{p}), p, r);
    var l := AfterRefresh(p, s.Here(p), r);
    assert s'.Here(p) == l;
    var rest := AwaitUpdate(p, l, Budget(s.retried, s.backoffCount), env, s.answered[p] + 1, true);
    assert s.Current(env) == Of(After(Update(p, true), rest));
    assert s'.Current(env) == Of(rest);
    GoesOn(s, s', [Update(p, true)], p, env);
  }

  lemma ListKeeps(s: State, r: Reply, env: Env)
    requires s.Valid() && s.pending == Awaiting(List) && !s.buttonEnabled
    requires r == env(YouTube, s.answered[YouTube])
    ensures Progress(s, Receive(s, r), env)
  {
    var t := s.(answered := s.answered + multiset{YouTube}, applyAfterList := false, pending := Nothing);
    if r.netFail || r.http != 200 {
      var v := Verdict(YouTube, false, Plain(ListOutcome(r)));
      TurnEnds(s, Show(t.(queue := s.queue[1..]), v), YouTube, v, env);
    } else if r.items == 0 {
      var v := Verdict(YouTube, false, Plain(NotFound));
      TurnEnds(s, Show(t.(queue := s.queue[1..], world := s.world.(broadcast := false)), v), YouTube, v, env);
    } else {
      ListLoaded(s, r, env);
    }
  }

  lemma ListLoaded(s: State, r: Reply, env: Env)
    requires s.Valid() && s.pending == Awaiting(List) && !s.buttonEnabled
    requires r == env(YouTube, s.answered[YouTube]) && !r.netFail && r.http == 200 && r.items != 0
    ensures Progress(s, Receive(s, r), env)
  {
    var u := s.(answered := s.answered + multiset{YouTube}, applyAfterList := false, pending := Nothing,
                world := s.world.(broadcast := true));
    var rest := Start(YouTube, s.Here(YouTube).(ready := true), FRESH, env, s.answered[YouTube] + 1);
    assert u.Here(YouTube) == s.Here(YouTube).(ready := true);
    assert u.Current(env) == Of(rest);
    GoesOn(s, u, [], YouTube, env);
    BeginKeeps(u, env);
  }

  lemma CreateKeeps(s: State, r: Reply, env: Env)
    requires s.Valid() && s.pending == Awaiting(Create) && !s.buttonEnabled
    requires r == env(Facebook, s.answered[Facebook])
    ensures Progress(s, Receive(s, r), env)
  {
    var v := CreateVerdict(r);
    var t := s.(answered := s.answered + multiset{Facebook}, createPending := false, pending := Nothing,
                queue := s.queue[1..], world := if v.ok then s.world.(liveVideo := true) else s.world);
    TurnEnds(s, Show(t, v), Facebook, v, env);
  }

  /** Every reply keeps what is due and brings the run closer to its end. */
  lemma ReplyKeeps(s: State, r: Reply, env: Env)
    requires s.Valid() && s.pending.Awaiting? && !s.buttonEnabled
    requires r == env(OpPlatform(s.pending.op), s.answered[OpPlatform(s.pending.op)])
    ensures Progress(s, Receive(s, r), env)
  {
    match s.pending.op
    case Update(_, _) => UpdateKeeps(s, r, env);
    case Refresh(_) => RefreshKeeps(s, r, env);
    case List => ListKeeps(s, r, env);
    case Create => CreateKeeps(s, r, env);
  }

  // ------------------------------------------------------------ what the dock knows afterwards

  lemma {:induction false} BeginKeepsWorld(s: State)
    ensures Begin(s).world == s.world
    decreases |s.queue|
  {
    if s.queue != [] && HeadTurn(s).pending == Nothing {
      BeginKeepsWorld(HeadTurn(s));
    }
  }

  /**
  What a reply teaches the dock: an account is disconnected exactly by a refused token that
  is not refreshed, or by a refused refresh; a refresh replaces the refresh token except
  YouTube's; a listing says whether there is a broadcast; a creation can only add a video.
  */
  lemma WorldAfter(s: State, r: Reply)
    requires s.Valid() && s.pending.Awaiting?
    ensures var w, w', op := s.world, Receive(s, r).world, s.pending.op;
            var p := OpPlatform(op);
            var granted := !r.netFail && r.http == 200;
            var refreshes := op.Update? && p != Facebook && !s.retried && p in w.refreshable && !op.again;
            && w'.connected == (if (op.Update? && Refused(p, r) && !refreshes) || (op.Refresh? && !granted)
                                then w.connected - {p} else w.connected)
            && (forall q :: q in w'.refreshable <==>
                  if op.Refresh? && granted && q == p && p != YouTube then r.rotated else q in w.refreshable)
            && w'.broadcast == (if op == List && granted then r.items > 0 else w.broadcast)
            && w'.liveVideo == (w.liveVideo || (op == Create && granted && r.hasId))
            && w'.titleValid == w.titleValid
  {
    var t := s.(answered := s.answered + multiset{OpPlatform(s.pending.op)});
    match s.pending.op
    case Update(p, again) =>
      AnswerMeans(p, r);
      BeginKeepsWorld(UpdateShown(t, p, r));
    case Refresh(p) =>
      BeginKeepsWorld(Show(Disconnect(t, p).(pending := Nothing), Verdict(p, false, Plain(AuthRequired))));
    case List => ListedWorld(t, r);
    case Create => CreatedWorld(t, r);
  }

  lemma ListedWorld(s: State, r: Reply)
    requires s.queue != []
    ensures ListReplied(s, r).world
         == if r.netFail || r.http != 200 then s.world else s.world.(broadcast := r.items > 0)
  {
    var t := s.(applyAfterList := false, pending := Nothing);
    var u := t.(world := s.world.(broadcast := r.items != 0));
    BeginKeepsWorld(Show(t.(queue := s.queue[1..]), Verdict(s.queue[0], false, Plain(ListOutcome(r)))));
    BeginKeepsWorld(Show(u.(queue := s.queue[1..]), Verdict(s.queue[0], false, Plain(NotFound))));
    BeginKeepsWorld(u);
  }

  lemma CreatedWorld(s: State, r: Reply)
    ensures CreateReplied(s, r).world
         == if !r.netFail && r.http == 200 && r.hasId then s.world.(liveVideo := true) else s.world
  {
    var v := CreateVerdict(r);
    BeginKeepsWorld(Show(s.(createPending := false, pending := Nothing,
                            queue := if s.queue != [] && s.queue[0] == Facebook then s.queue[1..] else s.queue,
                            world := if v.ok then s.world.(liveVideo := true) else s.world), v));
  }

  /** The run that began in `begun` has come to `s`. */
  ghost predicate OnCourse(begun: State, s: State, env: Env) {
    s.Valid() && Settled(s) && s.Due(env) == begun.Due(env)
  }

  /** Once the run is over, everything due was sent and shown. */
  lemma RunOver(begun: State, s: State, env: Env)
    requires OnCourse(begun, s, env) && s.pending == Nothing
    requires begun.pending == Nothing && !begun.backoffResume
    ensures Record(s.sent, s.results)
         == Join(Record(begun.sent, begun.results), Independent(begun.queue, begun.world, env, begun.answered))
  {
    FreshToCome(begun, env);
    assert s.ToCome(env) == EMPTY;
    assert Join(Record(s.sent, s.results), EMPTY) == Record(s.sent, s.results);
  }

  /** One result per platform, in queue order, each the result of that platform's own plan. */
  lemma {:induction false} OneResultEach(ps: seq<Platform>, w: World, env: Env, seen: multiset<Platform>)
    ensures var all := Independent(ps, w, env, seen);
            && |all.verdicts| == |ps|
            && (forall i :: 0 <= i < |ps| ==>
                  all.verdicts[i] == Start(ps[i], LocalOf(w, ps[i]), FRESH, env, seen[ps[i]]).verdict)
            && |all.ops| <= 6 * |ps|
  {
    if ps != [] {
      OneResultEach(ps[1..], w, env, seen);
      var first := Start(ps[0], LocalOf(w, ps[0]), FRESH, env, seen[ps[0]]);
      BoundedCost(ps[0], LocalOf(w, ps[0]), env, seen[ps[0]]);
      CountsAll(first.ops);
      var rest := Independent(ps[1..], w, env, seen);
      forall i | 0 <= i < |ps|
        ensures ([first.verdict] + rest.verdicts)[i]
             == Start(ps[i], LocalOf(w, ps[i]), FRESH, env, seen[ps[i]]).verdict
      {
        assert i > 0 ==> ps[i] == ps[1..][i - 1];
      }
    }
  }

  lemma {:induction false} CountsAll(ops: seq<Op>)
    ensures |ops| == CountUpdates(ops) + CountRefreshes(ops) + CountSetups(ops)
  {
    if ops != [] {
      CountsAll(ops[1..]);
    }
  }

  /** Changing what the other platforms are answered never changes this platform's result. */
  lemma {:induction false} NoInterference(ps: seq<Platform>, w: World, env: Env, env': Env,
                                          seen: multiset<Platform>, i: nat)
    requires i < |ps| && SameReplies(ps[i], env, env')
    ensures |Independent(ps, w, env, seen).verdicts| == |Independent(ps, w, env', seen).verdicts| == |ps|
    ensures Independent(ps, w, env, seen).verdicts[i] == Independent(ps, w, env', seen).verdicts[i]
  {
    OneResultEach(ps, w, env, seen);
    OneResultEach(ps, w, env', seen);
    OwnRepliesDecide(ps[i], LocalOf(w, ps[i]), FRESH, env, env', seen[ps[i]]);
  }

  /** What an Apply with the given platforms ticked and the given connections queues, in dock order. */
  function Selected(ticked: set<Platform>, connected: set<Platform>): seq<Platform> {
    (if Twitch in ticked && Twitch in connected then [Twitch] else [])
    + (if YouTube in ticked && YouTube in connected then [YouTube] else [])
    + (if Kick in ticked && Kick in connected then [Kick] else [])
    + (if Facebook in ticked && Facebook in connected then [Facebook] else [])
  }

  /** Where a platform stands in the dock. */
  function Place(p: Platform): nat {
    match p
    case Twitch => 0
    case YouTube => 1
    case Kick => 2
    case Facebook => 3
  }

  lemma SelectedMeans(ticked: set<Platform>, connected: set<Platform>)
    ensures var ps := Selected(ticked, connected);
            && (forall p :: p in ps <==> p in ticked && p in connected)
            && (forall i, j :: 0 <= i < j < |ps| ==> Place(ps[i]) < Place(ps[j]))
  {
    var ps := Selected(ticked, connected);
    forall p
      ensures p in ps <==> p in ticked && p in connected
    {
      match p
      case Twitch => assert p in ticked && p in connected ==> ps[0] == p;
      case _ =>
    }
  }

  class Dock {
    /** The Apply fields of the dock. */
    var st: State

    constructor (connected: set<Platform>, refreshable: set<Platform>, broadcast: bool, liveVideo: bool,
                 titleValid: bool)
      ensures st == State([], false, 0, false, false, false,
                          World(connected, refreshable, broadcast, liveVideo, titleValid),
                          true, Nothing, [], [], multiset{})
    {
      st := State([], false, 0, false, false, false,
                  World(connected, refreshable, broadcast, liveVideo, titleValid),
                  true, Nothing, [], [], multiset{});
    }

    method FinishPlatform(p: Platform, ok: bool, message: Message)
      modifies this
      ensures st == Show(old(st), Verdict(p, ok, message))
    {
      st := st.(results := st.results + [Verdict(p, ok, message)]);
    }

    method FinishApply()
      modifies this
      ensures st == old(st).(pending := Nothing, buttonEnabled := true)
    {
      st := st.(pending := Nothing);
      st := st.(buttonEnabled := true);
    }

    method Send(op: Op)
      modifies this
      ensures st == Ask(old(st), op)
    {
      st := st.(pending := Awaiting(op), sent := st.sent + [op]);
    }

    method StartApplyNext()
      modifies this
      ensures st == Begin(old(st))
      decreases |st.queue|
    {
      if st.queue == [] {
        FinishApply();
        return;
      }
      var p := TakeHead();
      SendFirst(p, old(st));
      if st.pending == Nothing {
        StartApplyNext();
      }
    }

    /** Take the head of the queue; a fresh platform gets its whole budget back. */
    method TakeHead() returns (p: Platform)
      requires st.queue != []
      modifies this
      ensures p == old(st).queue[0] && st == Taken(old(st))
    {
      p := st.queue[0];
      st := st.(queue := st.queue[1..], pending := Nothing);
      if !st.backoffResume {
        st := st.(retried := false, backoffCount := 0);
      }
      st := st.(backoffResume := false);
    }

    /** Send the first request of the platform just taken from the queue, or settle it. */
    method SendFirst(p: Platform, ghost before: State)
      requires before.queue != [] && p == before.queue[0] && st == Taken(before)
      modifies this
      ensures st == HeadTurn(before)
    {
      if p !in st.world.connected {
        FinishPlatform(p, false, Plain(AuthRequired));
      } else if p == YouTube && !st.world.broadcast {
        // The listing first; the platform goes back to the head of the queue.
        st := st.(queue := [p] + st.queue, applyAfterList := true);
        assert st.queue == before.queue;
        Send(List);
      } else if p == Facebook && !st.world.liveVideo {
        if !st.world.titleValid {
          FinishPlatform(p, false, NeedTitle);
        } else {
          st := st.(queue := [p] + st.queue, createPending := true);
          assert st.queue == before.queue;
          Send(Create);
        }
      } else {
        Send(Update(p, false));
      }
    }

    /** True when the update was put back at the head of the queue for one more try. */
    method ScheduleBackoff(p: Platform, oc: Outcome) returns (again: bool)
      modifies this
      ensures again <==> Backoffable(oc) && old(st).backoffCount < MAX_BACKOFFS
      ensures st == if again then old(st).(backoffCount := old(st).backoffCount + 1, backoffResume := true,
                                           queue := [p] + old(st).queue, pending := Timer)
                    else old(st)
    {
      if (oc != RateLimited && oc != ServerRetry) || st.backoffCount >= MAX_BACKOFFS {
        return false;
      }
      st := st.(backoffCount := st.backoffCount + 1, backoffResume := true);
      st := st.(queue := [p] + st.queue, pending := Timer);
      return true;
    }

    method OnUpdateReply(p: Platform, again: bool, r: Reply)
      modifies this
      ensures st == UpdateReplied(old(st), p, again, r)
    {
      var oc := UpdateOutcome(p, r);
      if p != Facebook && oc == AuthRequired && !st.retried && p in st.world.refreshable && !again {
        st := st.(retried := true);
        Send(Refresh(p));
        return;
      }
      var waits := ScheduleBackoff(p, oc);
      if waits {
        return;
      }
      if oc == AuthRequired {
        st := Disconnect(st, p);
      }
      st := st.(pending := Nothing);
      var v := UpdateVerdict(p, r);
      FinishPlatform(p, v.ok, v.message);
      StartApplyNext();
    }

    method OnRefreshReply(p: Platform, r: Reply)
      modifies this
      ensures st == RefreshReplied(old(st), p, r)
    {
      if !r.netFail && r.http == 200 {
        st := st.(world := st.world.(refreshable := Rotated(st.world.refreshable, p, r.rotated)));
        Send(Update(p, true));
      } else {
        st := Disconnect(st, p).(pending := Nothing);
        FinishPlatform(p, false, Plain(AuthRequired));
        StartApplyNext();
      }
    }

    method OnListReply(r: Reply)
      requires st.queue != []
      modifies this
      ensures st == ListReplied(old(st), r)
    {
      st := st.(applyAfterList := false, pending := Nothing);
      var p := st.queue[0];
      if r.netFail || r.http != 200 {
        st := st.(queue := st.queue[1..]);
        FinishPlatform(p, false, Plain(ListOutcome(r)));
      } else {
        st := st.(world := st.world.(broadcast := r.items != 0));
        if r.items == 0 {
          st := st.(queue := st.queue[1..]);
          FinishPlatform(p, false, Plain(NotFound));
        }
      }
      StartApplyNext();
    }

    method OnCreateReply(r: Reply)
      modifies this
      ensures st == CreateReplied(old(st), r)
    {
      var v := CreateVerdict(r);
      st := st.(createPending := false, pending := Nothing);
      if v.ok {
        st := st.(world := st.world.(liveVideo := true));
      }
      if st.queue != [] && st.queue[0] == Facebook {
        st := st.(queue := st.queue[1..]);
      }
      FinishPlatform(Facebook, v.ok, v.message);
      StartApplyNext();
    }

    method OnReply(r: Reply)
      requires st.Valid() && st.pending.Awaiting?
      modifies this
      ensures st == Receive(old(st), r)
    {
      st := st.(answered := st.answered + multiset{OpPlatform(st.pending.op)});
      match st.pending.op {
        case Update(p, again) => OnUpdateReply(p, again, r);
        case Refresh(p) => OnRefreshReply(p, r);
        case List => OnListReply(r);
        case Create => OnCreateReply(r);
      }
    }

    method OnBackoffTimeout()
      modifies this
      ensures st == Begin(old(st))
    {
      StartApplyNext();
    }

    method SelectPlatforms(ticked: set<Platform>) returns (queue: seq<Platform>)
      ensures queue == Selected(ticked, st.world.connected)
    {
      var connected := st.world.connected;
      queue := [];
      if Twitch in ticked && Twitch in connected { queue := queue + [Twitch]; }
      if YouTube in ticked && YouTube in connected { queue := queue + [YouTube]; }
      if Kick in ticked && Kick in connected { queue := queue + [Kick]; }
      if Facebook in ticked && Facebook in connected { queue := queue + [Facebook]; }
    }

    /** False when nothing ticked is connected: no request is sent and the button stays enabled. */
    method OnApply(ticked: set<Platform>) returns (started: bool)
      modifies this
      ensures var ps := Selected(ticked, old(st).world.connected);
              && (started <==> ps != [])
              && st == if started then Begin(old(st).(queue := ps, buttonEnabled := false))
                       else old(st).(queue := [])
    {
      var queue := SelectPlatforms(ticked);
      st := st.(queue := queue);
      if queue == [] {
        return false;
      }
      st := st.(buttonEnabled := false);
      StartApplyNext();
      return true;
    }

    /** The timer fires, or the outstanding request is answered. */
    method OnEvent(env: Env)
      requires st.Valid() && st.pending != Nothing && !st.buttonEnabled
      modifies this
      ensures Progress(old(st), st, env)
    {
      if st.pending == Timer {
        TimerKeeps(st, env);
        OnBackoffTimeout();
      } else {
        var p := OpPlatform(st.pending.op);
        var r := env(p, st.answered[p]);
        ReplyKeeps(st, r, env);
        OnReply(r);
      }
    }

    /**
    One whole Apply, with every request answered by `env` and every timer firing.  It ends;
    what was sent and shown is one independent plan per selected platform, in dock order.
    */
    method RunApply(ticked: set<Platform>, env: Env)
      requires st.Valid() && st.pending == Nothing && st.buttonEnabled && !st.backoffResume
      modifies this
      ensures st.pending == Nothing && st.buttonEnabled && st.queue == []
      ensures Record(st.sent, st.results)
           == Join(Record(old(st).sent, old(st).results),
                   Independent(Selected(ticked, old(st).world.connected), old(st).world, env, old(st).answered))
    {
      ghost var begun := st.(queue := Selected(ticked, st.world.connected), buttonEnabled := false);
      var started := OnApply(ticked);
      if !started {
        return;
      }
      BeginKeeps(begun, env);
      AnswerAll(begun, env);
      RunOver(begun, st, env);
    }

    /** Event after event, until nothing is outstanding. */
    method AnswerAll(ghost begun: State, env: Env)
      requires OnCourse(begun, st, env)
      modifies this
      ensures OnCourse(begun, st, env) && st.pending == Nothing
    {
      while st.pending != Nothing
        invariant OnCourse(begun, st, env)
        decreases st.Measure(env)
      {
        OnEvent(env);
      }
    }
  }
}
