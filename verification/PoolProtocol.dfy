/**
The bounded connection pool under every interleaving of its threads.

A step is what one thread does between two points where another thread may run: a queue
operation, a ping, taking the guard and reading the counter, writing it back and letting
the guard go.  The counter is read and written in separate steps, so an update is safe
only because of the guard.
*/
module PoolProtocol {
  import opened Options

  /** Connections are numbered in the order in which they are opened. */
  type Conn = nat

  /** The two loops of `acquire`: draining the queue, and waiting on it. */
  datatype Loop = Drain | Wait

  /** Where a thread goes once a broken connection has been written off. */
  datatype Next = Again(loop: Loop) | Leave

  datatype Pc =
    | Idle
    | Scanning                               // top of the draining loop
    | Pinging(c: Conn, loop: Loop)
    | Broken(c: Conn, next: Next)            // closed; the counter is still to be lowered
    | Lowering(c: Conn, next: Next, seen: int) // guard held, counter read
    | Checking                               // wants the guard to look for room
    | Opening                                // guard held, room seen, opener running
    | Opened(c: Conn, seen: int)             // guard held, opener returned, counter read
    | Waiting                                // timed wait on the queue
    | Got(c: Conn)                           // `acquire` is returning
    | Releasing(c: Conn)                     // `release` was called

  datatype Event = Take(c: Conn) | Give(c: Conn)

  /** `stack` holds the connections of open `with` blocks, `loose` those acquired directly. */
  datatype Thread = Thread(pc: Pc, viaWith: bool, stack: seq<Conn>, loose: set<Conn>, log: seq<Event>)

  const FRESH_THREAD := Thread(Idle, false, [], {}, [])

  /** `lost` counts connections dropped by `close`, which never lowers the counter. */
  datatype State = State(max: nat, created: int, free: seq<Conn>, guard: Option<nat>,
                         threads: seq<Thread>, next: Conn, lost: nat)

  datatype Act =
    | StartAcquire(viaWith: bool)
    | GetFree | GetEmpty
    | PingOk | PingFails
    | ReadToLower | WriteLower
    | CheckRoom | OpenOk | OpenFails | WriteRaise
    | TimeOut
    | Return
    | ExitWith | ReleaseLoose(c: Conn)
    | PutBack | FoundBroken
    | CloseFree

  predicate Enabled(s: State, i: nat, a: Act)
  {
    i < |s.threads| &&
    var t := s.threads[i];
    match a
    case StartAcquire(_) => t.pc == Idle
    case GetFree => (t.pc == Scanning || t.pc == Waiting) && s.free != []
    case GetEmpty => t.pc == Scanning && s.free == []
    case PingOk => t.pc.Pinging?
    case PingFails => t.pc.Pinging?
    case ReadToLower => t.pc.Broken? && s.guard == None
    case WriteLower => t.pc.Lowering?
    case CheckRoom => t.pc == Checking && s.guard == None
    case OpenOk => t.pc == Opening
    case OpenFails => t.pc == Opening
    case WriteRaise => t.pc.Opened?
    case TimeOut => t.pc == Waiting
    case Return => t.pc.Got?
    case ExitWith => t.pc == Idle && t.stack != []
    case ReleaseLoose(c) => t.pc == Idle && c in t.loose
    case PutBack => t.pc.Releasing?
    case FoundBroken => t.pc.Releasing?
    case CloseFree => t.pc == Idle && s.free != []
  }

  /** What the acting thread becomes. */
  function ThreadAfter(s: State, i: nat, a: Act): Thread
    requires Enabled(s, i, a)
  {
    var t := s.threads[i];
    match a
    case StartAcquire(w) => t.(pc := Scanning, viaWith := w)
    case GetFree => t.(pc := Pinging(s.free[0], if t.pc == Scanning then Drain else Wait))
    case GetEmpty => t.(pc := Checking)
    case PingOk => t.(pc := Got(t.pc.c))
    case PingFails => t.(pc := Broken(t.pc.c, Again(t.pc.loop)))
    case ReadToLower => t.(pc := Lowering(t.pc.c, t.pc.next, s.created))
    case WriteLower => t.(pc := match t.pc.next
                                case Again(Drain) => Scanning
                                case Again(Wait) => Checking
                                case Leave => Idle)
    case CheckRoom => t.(pc := if s.created < s.max then Opening else Waiting)
    case OpenOk => t.(pc := Opened(s.next, s.created))
    case OpenFails => t.(pc := Idle)
    case WriteRaise => t.(pc := Got(t.pc.c))
    case TimeOut => t.(pc := Idle)
    case Return =>
      if t.viaWith then t.(pc := Idle, stack := t.stack + [t.pc.c], log := t.log + [Take(t.pc.c)])
      else t.(pc := Idle, loose := t.loose + {t.pc.c})
    case ExitWith =>
      var c := t.stack[|t.stack| - 1];
      t.(pc := Releasing(c), stack := t.stack[..|t.stack| - 1], log := t.log + [Give(c)])
    case ReleaseLoose(c) => t.(pc := Releasing(c), loose := t.loose - {c})
    case PutBack => t.(pc := Idle)
    case FoundBroken => t.(pc := Broken(t.pc.c, Leave))
    case CloseFree => t
  }

  function CreatedAfter(s: State, i: nat, a: Act): int
    requires Enabled(s, i, a)
  {
    match a
    case WriteLower => s.threads[i].pc.seen - 1
    case WriteRaise => s.threads[i].pc.seen + 1
    case _ => s.created
  }

  function FreeAfter(s: State, i: nat, a: Act): seq<Conn>
    requires Enabled(s, i, a)
  {
    match a
    case GetFree => s.free[1..]
    case CloseFree => s.free[1..]
    case PutBack => s.free + [s.threads[i].pc.c]
    case _ => s.free
  }

  function GuardAfter(s: State, i: nat, a: Act): Option<nat>
    requires Enabled(s, i, a)
  {
    match a
    case ReadToLower => Some(i)
    case CheckRoom => if s.created < s.max then Some(i) else None
    case WriteLower => None
    case WriteRaise => None
    case OpenFails => None
    case _ => s.guard
  }

  function Step(s: State, i: nat, a: Act): State
    requires Enabled(s, i, a)
  {
    State(s.max, CreatedAfter(s, i, a), FreeAfter(s, i, a), GuardAfter(s, i, a),
          s.threads[i := ThreadAfter(s, i, a)],
          if a == OpenOk then s.next + 1 else s.next,
          if a == CloseFree then s.lost + 1 else s.lost)
  }

  // ------------------------------------------------------------ who holds what

  /** The connection a thread is working on inside the pool's code, if any. */
  function InHand(pc: Pc): Option<Conn> {
    match pc
    case Pinging(c, _) => Some(c)
    case Broken(c, _) => Some(c)
    case Lowering(c, _, _) => Some(c)
    case Opened(c, _) => Some(c)
    case Got(c) => Some(c)
    case Releasing(c) => Some(c)
    case _ => None
  }

  /** How many times a thread holds `c`. */
  function Copies(t: Thread, c: Conn): nat {
    (if InHand(t.pc) == Some(c) then 1 else 0) + multiset(t.stack)[c] + (if c in t.loose then 1 else 0)
  }

  /** How many connections a thread holds. */
  function Load(t: Thread): nat {
    (if InHand(t.pc).Some? then 1 else 0) + |t.stack| + |t.loose|
  }

  function CopiesIn(ts: seq<Thread>, c: Conn): nat {
    if ts == [] then 0 else Copies(ts[0], c) + CopiesIn(ts[1..], c)
  }

  function LoadOf(ts: seq<Thread>): nat {
    if ts == [] then 0 else Load(ts[0]) + LoadOf(ts[1..])
  }

  /** In how many places `c` is: queued, held, or being written off. */
  function Places(s: State, c: Conn): nat {
    multiset(s.free)[c] + CopiesIn(s.threads, c)
  }

  /** How many connections the pool accounts for: queued, held, or being written off. */
  function Known(s: State): nat {
    |s.free| + LoadOf(s.threads)
  }

  predicate InGuard(pc: Pc) {
    pc.Lowering? || pc.Opening? || pc.Opened?
  }

  /** One while the guard holder has opened a connection it has not counted yet. */
  function Uncounted(s: State): nat {
    match s.guard
    case None => 0
    case Some(i) => if i < |s.threads| && s.threads[i].pc.Opened? then 1 else 0
  }

  /** The guard is held by exactly the thread inside a guarded block, whose reading is current. */
  ghost predicate GuardSound(s: State) {
    && (forall i :: 0 <= i < |s.threads| ==> (InGuard(s.threads[i].pc) <==> s.guard == Some(i)))
    && (s.guard.Some? ==>
          && s.guard.value < |s.threads|
          && var pc := s.threads[s.guard.value].pc;
             && (pc.Lowering? || pc.Opened? ==> pc.seen == s.created)
             && (pc.Opening? || pc.Opened? ==> s.created < s.max))
  }

  /** No connection is in two places, and every one was really opened. */
  ghost predicate Unique(s: State) {
    forall c: Conn :: Places(s, c) <= (if c < s.next then 1 else 0)
  }

  /** The counter is the number of known connections, plus those lost to `close`. */
  ghost predicate Counted(s: State) {
    Known(s) + s.lost == s.created + Uncounted(s) && s.created <= s.max
  }

  /** The open part of a history of takes and gives, if every give returns the latest take. */
  function Replay(log: seq<Event>): Option<seq<Conn>> {
    if log == [] then Some([])
    else
      match Replay(log[..|log| - 1])
      case None => None
      case Some(st) =>
        match log[|log| - 1]
        case Take(c) => Some(st + [c])
        case Give(c) => if st != [] && st[|st| - 1] == c then Some(st[..|st| - 1]) else None
  }

  ghost predicate Lifo(s: State) {
    forall i :: 0 <= i < |s.threads| ==> Replay(s.threads[i].log) == Some(s.threads[i].stack)
  }

  ghost predicate Inv(s: State) {
    GuardSound(s) && Unique(s) && Counted(s) && Lifo(s)
  }

  // ------------------------------------------------------------ preservation

  lemma {:induction false} CopiesUpdate(ts: seq<Thread>, i: nat, t: Thread, c: Conn)
    requires i < |ts|
    ensures CopiesIn(ts[i := t], c) == CopiesIn(ts, c) - Copies(ts[i], c) + Copies(t, c)
    ensures Copies(ts[i], c) <= CopiesIn(ts, c)
  {
    if i == 0 {
      assert ts[0 := t][1..] == ts[1..];
    } else {
      assert ts[i := t][1..] == ts[1..][i - 1 := t];
      CopiesUpdate(ts[1..], i - 1, t, c);
    }
  }

  lemma {:induction false} LoadUpdate(ts: seq<Thread>, i: nat, t: Thread)
    requires i < |ts|
    ensures LoadOf(ts[i := t]) == LoadOf(ts) - Load(ts[i]) + Load(t)
    ensures Load(ts[i]) <= LoadOf(ts)
  {
    if i == 0 {
      assert ts[0 := t][1..] == ts[1..];
    } else {
      assert ts[i := t][1..] == ts[1..][i - 1 := t];
      LoadUpdate(ts[1..], i - 1, t);
    }
  }

  /** Which connection enters or leaves the pool's account in a step. */
  function Delta(s: State, i: nat, a: Act, c: Conn): int
    requires Enabled(s, i, a)
  {
    match a
    case OpenOk => if c == s.next then 1 else 0
    case WriteLower => if c == s.threads[i].pc.c then -1 else 0
    case CloseFree => if c == s.free[0] then -1 else 0
    case _ => 0
  }

  lemma FreeCopies(s: State, i: nat, a: Act, c: Conn)
    requires Enabled(s, i, a)
    ensures multiset(FreeAfter(s, i, a))[c]
         == multiset(s.free)[c]
          + (match a
             case PutBack => if c == s.threads[i].pc.c then 1 else 0
             case GetFree => if c == s.free[0] then -1 else 0
             case CloseFree => if c == s.free[0] then -1 else 0
             case _ => 0)
  {
    if a == GetFree || a == CloseFree {
      assert s.free == [s.free[0]] + s.free[1..];
    }
  }

  lemma ThreadCopies(s: State, i: nat, a: Act, c: Conn)
    requires Enabled(s, i, a)
    requires a == Return ==> s.threads[i].pc.c !in s.threads[i].loose
    ensures Copies(ThreadAfter(s, i, a), c)
         == Copies(s.threads[i], c)
          + (match a
             case PutBack => if c == s.threads[i].pc.c then -1 else 0
             case GetFree => if c == s.free[0] then 1 else 0
             case OpenOk => if c == s.next then 1 else 0
             case WriteLower => if c == s.threads[i].pc.c then -1 else 0
             case _ => 0)
  {
    var t := s.threads[i];
    if a == ExitWith {
      Popped(t.stack, c);
    } else if a == Return {
      Pushed(t.stack, t.pc.c, c);
    }
  }

  lemma {:induction false} Popped(st: seq<Conn>, c: Conn)
    requires st != []
    ensures multiset(st[..|st| - 1])[c] + (if st[|st| - 1] == c then 1 else 0) == multiset(st)[c]
  {
    assert st == st[..|st| - 1] + [st[|st| - 1]];
  }

  lemma {:induction false} Pushed(st: seq<Conn>, top: Conn, c: Conn)
    ensures multiset(st + [top])[c] == multiset(st)[c] + (if top == c then 1 else 0)
  {
  }

  /** What `acquire` is about to return is not among the connections the thread already has. */
  lemma NotHeldYet(s: State, i: nat, a: Act)
    requires Enabled(s, i, a) && Unique(s)
    ensures a == Return ==> s.threads[i].pc.c !in s.threads[i].loose
  {
    if a == Return {
      var c := s.threads[i].pc.c;
      CopiesUpdate(s.threads, i, s.threads[i], c);
      assert Places(s, c) <= 1;
    }
  }

  /** Connections only change place, except for the ones opened, written off or dropped by `close`. */
  lemma PlacesChange(s: State, i: nat, a: Act, c: Conn)
    requires Enabled(s, i, a) && Unique(s)
    ensures Places(Step(s, i, a), c) == Places(s, c) + Delta(s, i, a, c)
  {
    NotHeldYet(s, i, a);
    FreeCopies(s, i, a, c);
    ThreadCopies(s, i, a, c);
    CopiesUpdate(s.threads, i, ThreadAfter(s, i, a), c);
  }

  lemma UniqueKept(s: State, i: nat, a: Act)
    requires Enabled(s, i, a) && Unique(s)
    ensures Unique(Step(s, i, a))
  {
    forall c: Conn
      ensures Places(Step(s, i, a), c) <= (if c < Step(s, i, a).next then 1 else 0)
    {
      PlacesChange(s, i, a, c);
      assert Places(s, c) <= (if c < s.next then 1 else 0);
    }
  }

  lemma GuardKept(s: State, i: nat, a: Act)
    requires Enabled(s, i, a) && GuardSound(s)
    ensures GuardSound(Step(s, i, a))
  {
    var s' := Step(s, i, a);
    forall j | 0 <= j < |s'.threads|
      ensures InGuard(s'.threads[j].pc) <==> s'.guard == Some(j)
    {
      assert InGuard(s.threads[j].pc) <==> s.guard == Some(j);
      assert InGuard(s.threads[i].pc) <==> s.guard == Some(i);
    }
  }

  /** How the load of the acting thread changes. */
  lemma ThreadLoad(s: State, i: nat, a: Act)
    requires Enabled(s, i, a)
    requires a == Return ==> s.threads[i].pc.c !in s.threads[i].loose
    ensures Load(ThreadAfter(s, i, a)) + |FreeAfter(s, i, a)| - Load(s.threads[i]) - |s.free|
         == if a == OpenOk then 1 else if a == WriteLower || a == CloseFree then -1 else 0
  {
  }

  lemma KnownChange(s: State, i: nat, a: Act)
    requires Enabled(s, i, a) && Unique(s)
    ensures Known(Step(s, i, a)) - Known(s)
         == if a == OpenOk then 1 else if a == WriteLower || a == CloseFree then -1 else 0
  {
    NotHeldYet(s, i, a);
    ThreadLoad(s, i, a);
    LoadUpdate(s.threads, i, ThreadAfter(s, i, a));
  }

  /** The counter follows the connections: the two halves of an update never straddle another one. */
  lemma CountKept(s: State, i: nat, a: Act)
    requires Enabled(s, i, a) && GuardSound(s) && Unique(s) && Counted(s)
    ensures Counted(Step(s, i, a))
  {
    KnownChange(s, i, a);
    GuardKept(s, i, a);
    assert InGuard(s.threads[i].pc) <==> s.guard == Some(i);
  }

  lemma LifoKept(s: State, i: nat, a: Act)
    requires Enabled(s, i, a) && Lifo(s)
    ensures Lifo(Step(s, i, a))
  {
    var t := s.threads[i];
    var t' := ThreadAfter(s, i, a);
    if t'.log != t.log {
      assert t'.log[..|t'.log| - 1] == t.log;
    }
    assert Replay(t'.log) == Some(t'.stack);
  }

  /** One step of one thread keeps the whole invariant. */
  lemma StepKeeps(s: State, i: nat, a: Act)
    requires Inv(s) && Enabled(s, i, a)
    ensures Inv(Step(s, i, a))
  {
    GuardKept(s, i, a);
    UniqueKept(s, i, a);
    CountKept(s, i, a);
    LifoKept(s, i, a);
  }

  // ------------------------------------------------------------ whole runs

  datatype Move = Move(i: nat, a: Act)

  predicate CanRun(s: State, run: seq<Move>)
    decreases |run|
  {
    run == [] || (Enabled(s, run[0].i, run[0].a) && CanRun(Step(s, run[0].i, run[0].a), run[1..]))
  }

  function Run(s: State, run: seq<Move>): State
    requires CanRun(s, run)
    decreases |run|
  {
    if run == [] then s else Run(Step(s, run[0].i, run[0].a), run[1..])
  }

  function Init(n: nat, max: nat): State {
    State(max, 0, [], None, seq(n, _ => FRESH_THREAD), 0, 0)
  }

  lemma {:induction false} NothingHeld(ts: seq<Thread>)
    requires forall i :: 0 <= i < |ts| ==> ts[i] == FRESH_THREAD
    ensures LoadOf(ts) == 0 && forall c: Conn :: CopiesIn(ts, c) == 0
  {
    if ts != [] {
      NothingHeld(ts[1..]);
    }
  }

  lemma InitInv(n: nat, max: nat)
    ensures Inv(Init(n, max))
  {
    NothingHeld(Init(n, max).threads);
  }

  lemma {:induction false} RunKeeps(s: State, run: seq<Move>)
    requires Inv(s) && CanRun(s, run)
    ensures Inv(Run(s, run)) && Run(s, run).max == s.max
    decreases |run|
  {
    if run != [] {
      StepKeeps(s, run[0].i, run[0].a);
      RunKeeps(Step(s, run[0].i, run[0].a), run[1..]);
    }
  }

  /**
  However the threads interleave: the counter never exceeds the maximum, neither do the
  connections in existence, and whenever no thread is inside the guard the counter is
  exactly the queued, held and not yet written-off connections plus those `close` dropped.
  */
  lemma {:induction false} PoolIsBounded(n: nat, max: nat, run: seq<Move>)
    requires CanRun(Init(n, max), run)
    ensures var s := Run(Init(n, max), run);
            && Known(s) + s.lost <= max && s.created <= max
            && (s.guard == None ==> s.created == |s.free| + LoadOf(s.threads) + s.lost)
  {
    InitInv(n, max);
    RunKeeps(Init(n, max), run);
  }

  /**
  No connection is ever in two places: two threads never hold the same one, a queued one
  is held by nobody and queued once, and a thread never holds one twice.
  */
  lemma {:induction false} NeverShared(n: nat, max: nat, run: seq<Move>, c: Conn)
    requires CanRun(Init(n, max), run)
    ensures var s := Run(Init(n, max), run);
            && (forall i, j :: 0 <= i < j < |s.threads| ==>
                  Copies(s.threads[i], c) == 0 || Copies(s.threads[j], c) == 0)
            && (forall i :: 0 <= i < |s.threads| ==>
                  Copies(s.threads[i], c) + multiset(s.free)[c] <= 1)
  {
    InitInv(n, max);
    RunKeeps(Init(n, max), run);
    var s := Run(Init(n, max), run);
    assert Places(s, c) <= 1;
    forall i, j | 0 <= i < j < |s.threads|
      ensures Copies(s.threads[i], c) == 0 || Copies(s.threads[j], c) == 0
    {
      TwoHolders(s.threads, i, j, c);
    }
    forall i | 0 <= i < |s.threads|
      ensures Copies(s.threads[i], c) + multiset(s.free)[c] <= 1
    {
      CopiesUpdate(s.threads, i, s.threads[i], c);
    }
  }

  lemma {:induction false} TwoHolders(ts: seq<Thread>, i: nat, j: nat, c: Conn)
    requires i < j < |ts|
    ensures Copies(ts[i], c) + Copies(ts[j], c) <= CopiesIn(ts, c)
  {
    if i == 0 {
      assert ts[1..][j - 1] == ts[j];
      CopiesUpdate(ts[1..], j - 1, ts[j], c);
    } else {
      TwoHolders(ts[1..], i - 1, j - 1, c);
    }
  }

  /** Each thread hands its `with` connections back in the reverse of the order it took them. */
  lemma {:induction false} LastInFirstOut(n: nat, max: nat, run: seq<Move>, i: nat, k: nat)
    requires CanRun(Init(n, max), run) && i < |Run(Init(n, max), run).threads|
    requires k < |Run(Init(n, max), run).threads[i].log| && Run(Init(n, max), run).threads[i].log[k].Give?
    ensures var log := Run(Init(n, max), run).threads[i].log;
            exists j: nat :: j < k && log[j] == Take(log[k].c) && Replay(log[..j]) == Replay(log[..k + 1])
  {
    InitInv(n, max);
    RunKeeps(Init(n, max), run);
    var log := Run(Init(n, max), run).threads[i].log;
    PrefixReplays(log, k + 1);
    assert log[..k + 1][..k] == log[..k];
    PrefixReplays(log[..k + 1], k);
    var j := TakenAt(log[..k]);
    assert log[..k][..j] == log[..j];
  }

  lemma {:induction false} PrefixReplays(log: seq<Event>, k: nat)
    requires k <= |log| && Replay(log).Some?
    ensures Replay(log[..k]).Some?
    decreases |log|
  {
    if k < |log| {
      var short := log[..|log| - 1];
      assert short[..k] == log[..k];
      PrefixReplays(short, k);
    } else {
      assert log[..k] == log;
    }
  }

  /** The step at which the connection now on top was taken, on top of exactly what lies below it. */
  lemma {:induction false} TakenAt(log: seq<Event>) returns (j: nat)
    requires Replay(log).Some? && Replay(log).value != []
    ensures var st := Replay(log).value;
            j < |log| && log[j] == Take(st[|st| - 1]) && Replay(log[..j]) == Some(st[..|st| - 1])
    decreases |log|
  {
    var st := Replay(log).value;
    var short := log[..|log| - 1];
    match log[|log| - 1]
    case Take(_) =>
      j := |log| - 1;
    case Give(_) =>
      var j' := TakenAt(short);
      assert Replay(short[..j']) == Some(st);
      j := TakenAt(short[..j']);
      assert short[..j'][..j] == log[..j];
  }

  /** When nothing is held and nothing was closed, the counter is the length of the queue. */
  lemma {:induction false} QuietCount(n: nat, max: nat, run: seq<Move>)
    requires CanRun(Init(n, max), run)
    requires LoadOf(Run(Init(n, max), run).threads) == 0 && Run(Init(n, max), run).lost == 0
    ensures Run(Init(n, max), run).created == |Run(Init(n, max), run).free|
  {
    InitInv(n, max);
    RunKeeps(Init(n, max), run);
    var s := Run(Init(n, max), run);
    if Uncounted(s) == 1 {
      var i := s.guard.value;
      LoadUpdate(s.threads, i, s.threads[i]);
    }
  }

  // ------------------------------------------------------------ waiting and giving up

  lemma {:induction false} RunSplit(s: State, run: seq<Move>, k: nat)
    requires CanRun(s, run) && k <= |run|
    ensures CanRun(s, run[..k]) && CanRun(Run(s, run[..k]), run[k..])
    ensures Run(Run(s, run[..k]), run[k..]) == Run(s, run)
    decreases |run|
  {
    if k == 0 {
      assert run[..0] == [] && run[0..] == run;
    } else {
      var s' := Step(s, run[0].i, run[0].a);
      RunSplit(s', run[1..], k - 1);
      assert run[..k][1..] == run[1..][..k - 1] && run[1..][k - 1..] == run[k..];
    }
  }

  /** In move `k` of the run, thread `i` looked for room for the last time, and the counter was at its maximum. */
  ghost predicate SawFull(s: State, run: seq<Move>, i: nat, k: nat)
    requires CanRun(s, run)
  {
    && k < |run| && run[k] == Move(i, CheckRoom) && CanRun(s, run[..k]) && Run(s, run[..k]).created >= s.max
    && forall j: nat :: k < j < |run| ==> run[j] != Move(i, CheckRoom)
  }

  /**
  A thread waits, and can then report exhaustion, only if it found the pool full itself
  when it last looked.
  */
  lemma {:induction false} WaitsOnlyAfterFull(n: nat, max: nat, run: seq<Move>, i: nat)
    requires CanRun(Init(n, max), run)
    requires var ts := Run(Init(n, max), run).threads; i < |ts| && ts[i].pc == Waiting
    ensures exists k: nat :: SawFull(Init(n, max), run, i, k)
    decreases |run|
  {
    var s := Init(n, max);
    if run != [] {
      var m := |run| - 1;
      RunSplit(s, run, m);
      var before := Run(s, run[..m]);
      assert run[m..] == [run[m]];
      assert Run(before, run[m..]) == Step(before, run[m].i, run[m].a);
      InitInv(n, max);
      RunKeeps(s, run[..m]);
      if run[m].i == i && run[m].a != CloseFree {
        assert run[m].a == CheckRoom;
        assert SawFull(s, run, i, m);
      } else {
        WaitsOnlyAfterFull(n, max, run[..m], i);
        var k: nat :| SawFull(s, run[..m], i, k);
        StillLast(s, run, m, i, k);
      }
    }
  }

  lemma {:induction false} StillLast(s: State, run: seq<Move>, m: nat, i: nat, k: nat)
    requires CanRun(s, run) && m == |run| - 1 && CanRun(s, run[..m]) && SawFull(s, run[..m], i, k)
    requires run[m] != Move(i, CheckRoom)
    ensures SawFull(s, run, i, k)
  {
    assert run[..m][..k] == run[..k];
    forall j: nat | k < j < |run|
      ensures run[j] != Move(i, CheckRoom)
    {
      assert j < m ==> run[..m][j] == run[j];
    }
  }

  /** How many connections were opened less how many were written off. */
  function Net(run: seq<Move>): int {
    if run == [] then 0
    else (if run[0].a == WriteRaise then 1 else if run[0].a == WriteLower then -1 else 0) + Net(run[1..])
  }

  lemma {:induction false} CountedByNet(s: State, run: seq<Move>)
    requires Inv(s) && CanRun(s, run)
    ensures Run(s, run).created == s.created + Net(run)
    decreases |run|
  {
    if run != [] {
      StepKeeps(s, run[0].i, run[0].a);
      CountedByNet(Step(s, run[0].i, run[0].a), run[1..]);
    }
  }

  /**
  What a report of exhaustion is worth: since the reporting thread last looked, the counter
  has moved by what was opened less what was written off.  So the pool is full when the
  report comes exactly if as many connections were opened as written off since then.
  */
  lemma {:induction false} ReportedTruly(n: nat, max: nat, run: seq<Move>, i: nat, k: nat)
    requires CanRun(Init(n, max), run) && SawFull(Init(n, max), run, i, k)
    ensures Run(Init(n, max), run).created == max + Net(run[k..])
    ensures Run(Init(n, max), run).created == max <==> Net(run[k..]) == 0
    ensures (forall m :: m in run[k..] ==> m.a != WriteLower) ==> Run(Init(n, max), run).created == max
  {
    var s := Init(n, max);
    InitInv(n, max);
    RunSplit(s, run, k);
    PoolIsBounded(n, max, run[..k]);
    PoolIsBounded(n, max, run);
    RunKeeps(s, run[..k]);
    CountedByNet(Run(s, run[..k]), run[k..]);
    if forall m :: m in run[k..] ==> m.a != WriteLower {
      NothingWrittenOff(run[k..]);
    }
  }

  lemma {:induction false} NothingWrittenOff(run: seq<Move>)
    requires forall m :: m in run ==> m.a != WriteLower
    ensures Net(run) >= 0
  {
    if run != [] {
      NothingWrittenOff(run[1..]);
    }
  }

  /** One more move at the end of a run. */
  lemma {:induction false} Extend(s: State, run: seq<Move>, m: Move)
    requires CanRun(s, run) && Enabled(Run(s, run), m.i, m.a)
    ensures CanRun(s, run + [m]) && Run(s, run + [m]) == Step(Run(s, run), m.i, m.a)
    decreases |run|
  {
    if run == [] {
      assert run + [m] == [m];
      assert [m][1..] == [];
    } else {
      Extend(Step(s, run[0].i, run[0].a), run[1..], m);
      assert (run + [m])[1..] == run[1..] + [m];
    }
  }

  lemma {:induction false} Do(s: State, run: seq<Move>, i: nat, a: Act) returns (run': seq<Move>)
    requires CanRun(s, run) && Enabled(Run(s, run), i, a)
    ensures CanRun(s, run') && Run(s, run') == Step(Run(s, run), i, a)
    ensures run' == run + [Move(i, a)]
  {
    Extend(s, run, Move(i, a));
    run' := run + [Move(i, a)];
  }

  /** All moves are thread `i`'s, the opener works, and nobody gives up or closes the pool. */
  ghost predicate Alone(moves: seq<Move>, i: nat) {
    forall m :: m in moves ==> m.i == i && !m.a.TimeOut? && !m.a.OpenFails? && !m.a.CloseFree?
  }

  /** `s` with thread `i` at program point `pc`. */
  function At(s: State, i: nat, pc: Pc): State
    requires i < |s.threads|
  {
    s.(threads := s.threads[i := s.threads[i].(pc := pc)])
  }

  /** Left alone, thread `i` finds the queue empty and opens a connection. */
  lemma {:induction false} OpensOne(s0: State, run: seq<Move>, i: nat) returns (run': seq<Move>)
    requires CanRun(s0, run) && var s := Run(s0, run);
             i < |s.threads| && s.threads[i].pc == Scanning && s.free == [] && s.guard == None && s.created < s.max
    ensures CanRun(s0, run') && var s := Run(s0, run);
            Run(s0, run') == At(s, i, Got(s.next)).(created := s.created + 1, next := s.next + 1)
    ensures run <= run' && |run'| == |run| + 4 && Alone(run'[|run|..], i)
  {
    var s := Run(s0, run);
    assert s == At(s, i, Scanning);
    run' := Do(s0, run, i, GetEmpty);
    assert Run(s0, run') == At(s, i, Checking);
    run' := Do(s0, run', i, CheckRoom);
    assert Run(s0, run') == At(s, i, Opening).(guard := Some(i));
    run' := OpensInGuard(s0, run', s, i);
    assert run'[|run|..] == [Move(i, GetEmpty), Move(i, CheckRoom), Move(i, OpenOk), Move(i, WriteRaise)];
  }

  lemma {:induction false} OpensInGuard(s0: State, run: seq<Move>, s: State, i: nat) returns (run': seq<Move>)
    requires CanRun(s0, run) && i < |s.threads| && s.guard == None
    requires Run(s0, run) == At(s, i, Opening).(guard := Some(i))
    ensures run' == run + [Move(i, OpenOk), Move(i, WriteRaise)] && CanRun(s0, run')
    ensures Run(s0, run') == At(s, i, Got(s.next)).(created := s.created + 1, next := s.next + 1)
  {
    run' := Do(s0, run, i, OpenOk);
    assert Run(s0, run') == At(s, i, Opened(s.next, s.created)).(guard := Some(i), next := s.next + 1);
    run' := Do(s0, run', i, WriteRaise);
    assert run + [Move(i, OpenOk), Move(i, WriteRaise)] == run + [Move(i, OpenOk)] + [Move(i, WriteRaise)];
  }

  /** Left alone, thread `i` finds the head of the queue dead and writes it off. */
  lemma {:induction false} DropsDead(s0: State, run: seq<Move>, i: nat) returns (run': seq<Move>)
    requires CanRun(s0, run) && var s := Run(s0, run);
             i < |s.threads| && s.threads[i].pc == Scanning && s.free != [] && s.guard == None
    ensures CanRun(s0, run') && var s := Run(s0, run);
            Run(s0, run') == s.(created := s.created - 1, free := s.free[1..])
    ensures run <= run' && |run'| == |run| + 4 && Alone(run'[|run|..], i)
  {
    var s := Run(s0, run);
    var u := s.(free := s.free[1..]);
    var c := s.free[0];
    run' := Do(s0, run, i, GetFree);
    assert Run(s0, run') == At(u, i, Pinging(c, Drain));
    run' := Do(s0, run', i, PingFails);
    assert Run(s0, run') == At(u, i, Broken(c, Again(Drain)));
    run' := WritesOff(s0, run', u, i, c);
    assert At(u, i, Scanning) == u;
    assert run'[|run|..] == [Move(i, GetFree), Move(i, PingFails), Move(i, ReadToLower), Move(i, WriteLower)];
  }

  lemma {:induction false} WritesOff(s0: State, run: seq<Move>, u: State, i: nat, c: Conn) returns (run': seq<Move>)
    requires CanRun(s0, run) && i < |u.threads| && u.guard == None
    requires Run(s0, run) == At(u, i, Broken(c, Again(Drain)))
    ensures run' == run + [Move(i, ReadToLower), Move(i, WriteLower)] && CanRun(s0, run')
    ensures Run(s0, run') == At(u, i, Scanning).(created := u.created - 1)
  {
    run' := Do(s0, run, i, ReadToLower);
    assert Run(s0, run') == At(u, i, Lowering(c, Again(Drain), u.created)).(guard := Some(i));
    run' := Do(s0, run', i, WriteLower);
    assert run + [Move(i, ReadToLower), Move(i, WriteLower)] == run + [Move(i, ReadToLower)] + [Move(i, WriteLower)];
  }

  /** How many connections at the head of the queue are dead. */
  function DeadAhead(free: seq<Conn>, dead: set<Conn>): (k: nat)
    ensures k <= |free| && (k < |free| ==> free[k] !in dead) && forall j :: 0 <= j < k ==> free[j] in dead
  {
    if free == [] || free[0] !in dead then 0 else 1 + DeadAhead(free[1..], dead)
  }

  /** The state in which a thread left alone ends its `acquire`. */
  function Acquired(s: State, i: nat, dead: set<Conn>): State
    requires i < |s.threads|
  {
    var k := DeadAhead(s.free, dead);
    if k < |s.free| then At(s, i, Got(s.free[k])).(created := s.created - k, free := s.free[k + 1..])
    else At(s, i, Got(s.next)).(created := s.created - k + 1, free := [], next := s.next + 1)
  }

  /**
  However many queued connections have died: as long as the connections outside the queue
  leave room for one, a thread left alone gets a connection, in at most four moves per
  queued connection and four more.  It is the first live one of the queue, or a new one.
  */
  lemma {:induction false} AcquiresAlone(s0: State, run: seq<Move>, i: nat, dead: set<Conn>) returns (run': seq<Move>)
    requires CanRun(s0, run) && var s := Run(s0, run);
             i < |s.threads| && s.threads[i].pc == Scanning && s.guard == None && s.created - |s.free| < s.max
    ensures CanRun(s0, run') && run <= run' && |run'| <= |run| + 4 * |Run(s0, run).free| + 4
    ensures Alone(run'[|run|..], i)
    ensures Run(s0, run') == Acquired(Run(s0, run), i, dead)
    decreases |Run(s0, run).free|
  {
    var s := Run(s0, run);
    if s.free == [] {
      run' := OpensOne(s0, run, i);
    } else if s.free[0] in dead {
      var mid := DropsDead(s0, run, i);
      run' := AcquiresAlone(s0, mid, i, dead);
      AloneJoins(run, mid, run', i);
      AcquiredTail(s, i, dead);
    } else {
      run' := TakesLive(s0, run, i);
    }
  }

  lemma {:induction false} AloneJoins(run: seq<Move>, mid: seq<Move>, end: seq<Move>, i: nat)
    requires run <= mid <= end && Alone(mid[|run|..], i) && Alone(end[|mid|..], i)
    ensures Alone(end[|run|..], i)
  {
    assert end[|run|..] == mid[|run|..] + end[|mid|..];
  }

  /** Left alone, thread `i` finds the head of the queue alive. */
  lemma {:induction false} TakesLive(s0: State, run: seq<Move>, i: nat) returns (run': seq<Move>)
    requires CanRun(s0, run) && var s := Run(s0, run); i < |s.threads| && s.threads[i].pc == Scanning && s.free != []
    ensures CanRun(s0, run') && var s := Run(s0, run);
            Run(s0, run') == At(s, i, Got(s.free[0])).(free := s.free[1..])
    ensures run <= run' && |run'| == |run| + 2 && Alone(run'[|run|..], i)
  {
    var s := Run(s0, run);
    var u := s.(free := s.free[1..]);
    run' := Do(s0, run, i, GetFree);
    assert Run(s0, run') == At(u, i, Pinging(s.free[0], Drain));
    run' := Do(s0, run', i, PingOk);
    assert Run(s0, run') == At(u, i, Got(s.free[0]));
    assert run'[|run|..] == [Move(i, GetFree), Move(i, PingOk)];
  }

  lemma AcquiredTail(s: State, i: nat, dead: set<Conn>)
    requires i < |s.threads| && s.free != [] && s.free[0] in dead
    ensures Acquired(s, i, dead) == Acquired(s.(created := s.created - 1, free := s.free[1..]), i, dead)
  {
    var k := DeadAhead(s.free[1..], dead);
    if k < |s.free[1..]| {
      assert s.free[1..][k + 1..] == s.free[k + 2..];
    }
  }

  // ------------------------------------------------------------ every lone acquire succeeds

  /** Where the guard is, and what the counter says, while thread `i` acquires alone and there is room for it. */
  ghost predicate Acquiring(s: State, i: nat) {
    && i < |s.threads|
    && var pc := s.threads[i].pc;
       match pc
       case Scanning => s.guard == None && s.created - |s.free| < s.max
       case Pinging(_, Drain) => s.guard == None && s.created - |s.free| - 1 < s.max
       case Broken(_, Again(Drain)) => s.guard == None && s.created - |s.free| - 1 < s.max
       case Lowering(_, Again(Drain), seen) => s.guard == Some(i) && seen == s.created
                                               && s.created - |s.free| - 1 < s.max
       case Checking => s.guard == None && s.created < s.max
       case Opening => s.guard == Some(i)
       case Opened(_, _) => s.guard == Some(i)
       case Got(_) => true
       case _ => false
  }

  /** The most moves that are left. */
  function MovesLeft(s: State, i: nat): nat
    requires i < |s.threads|
  {
    match s.threads[i].pc
    case Scanning => 4 * |s.free| + 4
    case Pinging(_, _) => 4 * |s.free| + 7
    case Broken(_, _) => 4 * |s.free| + 6
    case Lowering(_, _, _) => 4 * |s.free| + 5
    case Checking => 3
    case Opening => 2
    case Opened(_, _) => 1
    case _ => 0
  }

  /** Moves of thread `i` alone, none of them its return from `acquire`. */
  ghost predicate AcquiringAlone(moves: seq<Move>, i: nat) {
    Alone(moves, i) && forall m :: m in moves ==> m.a != Return
  }

  lemma AcquiringStep(s: State, m: Move)
    requires Acquiring(s, m.i) && Enabled(s, m.i, m.a) && AcquiringAlone([m], m.i)
    ensures Acquiring(Step(s, m.i, m.a), m.i) && MovesLeft(Step(s, m.i, m.a), m.i) < MovesLeft(s, m.i)
  {
    assert m in [m];
  }

  /** Short of success there is always a next move. */
  lemma AcquiringGoesOn(s: State, i: nat)
    requires Acquiring(s, i) && !s.threads[i].pc.Got?
    ensures exists a :: Enabled(s, i, a) && AcquiringAlone([Move(i, a)], i)
  {
    var a :=
      match s.threads[i].pc
      case Scanning => if s.free == [] then GetEmpty else GetFree
      case Pinging(_, _) => PingOk
      case Broken(_, _) => ReadToLower
      case Lowering(_, _, _) => WriteLower
      case Checking => CheckRoom
      case Opening => OpenOk
      case _ => WriteRaise;
    assert Enabled(s, i, a) && AcquiringAlone([Move(i, a)], i);
  }

  lemma {:induction false} AcquiringRun(s: State, i: nat, moves: seq<Move>)
    requires Acquiring(s, i) && CanRun(s, moves) && AcquiringAlone(moves, i)
    ensures Acquiring(Run(s, moves), i) && MovesLeft(Run(s, moves), i) + |moves| <= MovesLeft(s, i)
    decreases |moves|
  {
    if moves != [] {
      assert moves[0] in moves;
      AcquiringStep(s, moves[0]);
      AcquiringRun(Step(s, i, moves[0].a), i, moves[1..]);
    }
  }

  /**
  However many queued connections have died, and whichever those are: if the connections
  outside the queue leave room for one, whatever a thread left alone does in `acquire` it
  never waits, let alone gives up; it can always go on, and has a connection after at most
  four moves per queued connection and four more.
  */
  lemma {:induction false} EveryLoneAcquire(s: State, i: nat, moves: seq<Move>)
    requires i < |s.threads| && s.threads[i].pc == Scanning && s.guard == None && s.created - |s.free| < s.max
    requires CanRun(s, moves) && AcquiringAlone(moves, i)
    ensures var end := Run(s, moves);
            && i < |end.threads| && end.threads[i].pc != Waiting && end.threads[i].pc != Idle
            && |moves| <= 4 * |s.free| + 4
            && (end.threads[i].pc.Got? || exists a :: Enabled(end, i, a) && AcquiringAlone([Move(i, a)], i))
            && (|moves| == 4 * |s.free| + 4 ==> end.threads[i].pc.Got?)
  {
    AcquiringRun(s, i, moves);
    var end := Run(s, moves);
    if !end.threads[i].pc.Got? {
      AcquiringGoesOn(end, i);
    }
  }

  /** So it is from every reachable state in which nobody holds a connection. */
  lemma {:induction false} AcquiresWhenQuiet(n: nat, max: nat, run: seq<Move>, i: nat, moves: seq<Move>)
    requires max >= 1 && CanRun(Init(n, max), run)
    requires var s := Run(Init(n, max), run);
             && LoadOf(s.threads) == 0 && s.lost == 0 && s.guard == None && i < |s.threads|
             && s.threads[i].pc == Scanning
             && CanRun(s, moves) && AcquiringAlone(moves, i)
    ensures var s := Run(Init(n, max), run);
            var end := Run(s, moves);
            && i < |end.threads| && end.threads[i].pc != Waiting && end.threads[i].pc != Idle
            && |moves| <= 4 * |s.free| + 4
            && (end.threads[i].pc.Got? || exists a :: Enabled(end, i, a) && AcquiringAlone([Move(i, a)], i))
            && (|moves| == 4 * |s.free| + 4 ==> end.threads[i].pc.Got?)
  {
    QuietCount(n, max, run);
    InitInv(n, max);
    RunKeeps(Init(n, max), run);
    EveryLoneAcquire(Run(Init(n, max), run), i, moves);
  }

  /**
  Writing off a connection wakes nobody: with two threads and a pool of one, a thread can
  report exhaustion while no connection exists and the pool has room.
  */
  lemma {:induction false} SpuriousExhaustion() returns (run: seq<Move>)
    ensures CanRun(Init(2, 1), run)
    ensures var s := Run(Init(2, 1), run);
            s.created == 0 && Known(s) == 0 && Enabled(s, 1, TimeOut)
  {
    run := TakesOne();
    run := WaitsFull(Init(2, 1), run, FRESH_THREAD.(loose := {0}));
    run := FindsBroken(Init(2, 1), run);
    LoadOfTwo(FRESH_THREAD, FRESH_THREAD.(pc := Waiting));
  }

  lemma LoadOfTwo(t: Thread, u: Thread)
    ensures LoadOf([t, u]) == Load(t) + Load(u)
  {
    assert [t, u][1..] == [u];
    assert LoadOf([u]) == Load(u) by {
      assert [u][1..] == [];
    }
  }

  lemma {:induction false} TakesOne() returns (run: seq<Move>)
    ensures CanRun(Init(2, 1), run)
    ensures Run(Init(2, 1), run) == State(1, 1, [], None, [FRESH_THREAD.(loose := {0}), FRESH_THREAD], 1, 0)
  {
    var s0 := Init(2, 1);
    run := Do(s0, [], 0, StartAcquire(false));
    assert Run(s0, run).threads == [FRESH_THREAD.(pc := Scanning), FRESH_THREAD];
    run := OpensOne(s0, run, 0);
    assert Run(s0, run).threads == [FRESH_THREAD.(pc := Got(0)), FRESH_THREAD];
    run := Do(s0, run, 0, Return);
    assert {} + {0} == {0};
    assert Run(s0, run).threads == [FRESH_THREAD.(loose := {0}), FRESH_THREAD];
  }

  lemma {:induction false} WaitsFull(s0: State, run: seq<Move>, held: Thread) returns (run': seq<Move>)
    requires CanRun(s0, run) && Run(s0, run) == State(1, 1, [], None, [held, FRESH_THREAD], 1, 0)
    ensures CanRun(s0, run') && Run(s0, run') == State(1, 1, [], None, [held, FRESH_THREAD.(pc := Waiting)], 1, 0)
  {
    run' := Do(s0, run, 1, StartAcquire(false));
    run' := Do(s0, run', 1, GetEmpty);
    run' := Do(s0, run', 1, CheckRoom);
  }

  lemma {:induction false} FindsBroken(s0: State, run: seq<Move>) returns (run': seq<Move>)
    requires CanRun(s0, run)
    requires Run(s0, run)
             == State(1, 1, [], None, [Thread(Idle, false, [], {0}, []), FRESH_THREAD.(pc := Waiting)], 1, 0)
    ensures CanRun(s0, run')
    ensures Run(s0, run') == State(1, 0, [], None, [FRESH_THREAD, FRESH_THREAD.(pc := Waiting)], 1, 0)
  {
    var wait := FRESH_THREAD.(pc := Waiting);
    run' := Do(s0, run, 0, ReleaseLoose(0));
    assert {0} - {0} == {};
    assert Run(s0, run').threads == [FRESH_THREAD.(pc := Releasing(0)), wait];
    run' := Do(s0, run', 0, FoundBroken);
    run' := Do(s0, run', 0, ReadToLower);
    assert Run(s0, run').threads == [FRESH_THREAD.(pc := Lowering(0, Leave, 1)), wait];
    run' := Do(s0, run', 0, WriteLower);
    assert Run(s0, run').threads == [FRESH_THREAD, wait];
  }
}
