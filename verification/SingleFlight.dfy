/**
Refreshing an access token while other threads do the same, and while callbacks, and
deletions, go on.  Every store access, lock operation and provider call is a step of its
own, and the steps of all threads interleave freely.

With a provider that issues a new refresh token every time (section 6 of RFC 6749), a
refresh token that has been redeemed is never presented again, and two refreshes for the
same installation and account are a token's life, less the margin, apart.
*/
module SingleFlight {
  import opened Options
  import opened Tables
  import opened OAuth

  type Tid = nat
  type Lock = nat
  type Account = string

  datatype Conn = Conn(account: Account, obtainedAt: real)

  datatype Pair = Pair(refresh: string, expiresIn: int)

  /** Where a thread is; from `Inside` to `Leaving` it holds the account's lock. */
  datatype Thread =
    | Idle
    | HasEntry(iid: Iid, account: Account, obtainedAt: real)
    | Wanting(iid: Iid, account: Account)
    | Waiting(iid: Iid, account: Account, lock: Lock)
    | Inside(iid: Iid, account: Account, lock: Lock)
    | Reread(iid: Iid, account: Account, lock: Lock, entry: Option<Conn>)
    | Presenting(iid: Iid, account: Account, lock: Lock, conn: Conn, refresh: string)
    | Awaiting(iid: Iid, account: Account, lock: Lock, conn: Conn, refresh: string)
    | Saving(iid: Iid, account: Account, lock: Lock, conn: Conn, pair: Pair)
    | Dating(iid: Iid, account: Account, lock: Lock, conn: Conn)
    | Leaving(iid: Iid, account: Account, lock: Lock)
    | Exchanged(iid: Iid, account: Account, pair: Pair)
    | Connecting(iid: Iid, account: Account)
  {
    predicate Holds() {
      Inside? || Reread? || Presenting? || Awaiting? || Saving? || Dating? || Leaving?
    }

    /** Has taken a refresh token from the row and not had it answered. */
    predicate Uses() {
      Presenting? || Awaiting?
    }

    /** Has a pair from the provider that it has not stored yet. */
    predicate Brings() {
      Saving? || Exchanged?
    }
  }

  /**
  The tables of one provider, the lock objects by account and their holders.  The rest is
  history: whom each refresh token was issued for, which have been redeemed, and when a
  refresh for an installation and account was last completed.
  */
  datatype World = World(conns: map<Iid, Conn>, tokens: map<Account, Pair>, locks: map<Account, Lock>,
                         held: map<Lock, Tid>, threads: map<Tid, Thread>, clock: real,
                         issued: map<string, Account>, redeemed: set<string>, completed: map<(Iid, Account), real>)

  datatype Act =
    | Call(iid: Iid)
    | Receive(iid: Iid, account: Account, pair: Pair)
    | Go
    | FindLock(unused: Lock)
    | Answer(reply: Option<Pair>)
    | EraseRow(account: Account)
    | EraseConn(iid: Iid)

  /** Thread `tid` does `act` at time `now`. */
  datatype Move = Move(tid: Tid, act: Act, now: real)

  predicate Valid(conn: Conn, pair: Pair, now: real) {
    pair.expiresIn != 0 && now - conn.obtainedAt < (pair.expiresIn - REFRESH_MARGIN) as real
  }

  // ------------------------------------------------------------ the steps

  /** A pair as the provider issues them: the refresh token, if there is one, is new. */
  predicate New(w: World, pair: Pair) {
    pair.refresh == "" || pair.refresh !in w.issued
  }

  function Issue(issued: map<string, Account>, pair: Pair, account: Account): map<string, Account> {
    if pair.refresh == "" then issued else issued[pair.refresh := account]
  }

  predicate Enabled(w: World, m: Move) {
    && m.tid in w.threads && w.clock <= m.now
    && var th := w.threads[m.tid];
       match m.act
       case Call(_) => th.Idle?
       case Receive(_, _, pair) => th.Idle? && New(w, pair)
       case FindLock(unused) => th.Wanting? && unused !in w.locks.Values && unused !in w.held
       case Answer(reply) => th.Awaiting? && (reply.Some? ==> New(w, reply.value))
       case EraseRow(_) => th.Idle?
       case EraseConn(_) => th.Idle?
       case Go => !th.Idle? && !th.Wanting? && !th.Awaiting? && (th.Waiting? ==> th.lock !in w.held)
  }

  /** With the entry and the row read again: a current token, an absence or no refresh token ends the visit. */
  function Decide(th: Thread, tokens: map<Account, Pair>, now: real): Thread
    requires th.Reread?
  {
    if th.entry == None || th.account !in tokens || Valid(th.entry.value, tokens[th.account], now)
       || tokens[th.account].refresh == ""
    then Leaving(th.iid, th.account, th.lock)
    else Presenting(th.iid, th.account, th.lock, th.entry.value, tokens[th.account].refresh)
  }

  /** Where the thread that moves is afterwards. */
  function Moved(w: World, m: Move): Thread
    requires Enabled(w, m)
  {
    var th := w.threads[m.tid];
    match m.act
    case Call(iid) => if iid in w.conns then HasEntry(iid, w.conns[iid].account, w.conns[iid].obtainedAt) else Idle
    case Receive(iid, a, pair) => Exchanged(iid, a, pair)
    case FindLock(unused) =>
      Waiting(th.iid, th.account, if th.account in w.locks then w.locks[th.account] else unused)
    case Answer(None) => Leaving(th.iid, th.account, th.lock)
    case Answer(Some(pair)) => Saving(th.iid, th.account, th.lock, th.conn, pair)
    case Go => Goes(th, w, m.now)
    case _ => th
  }

  function Goes(th: Thread, w: World, now: real): Thread {
    match th
    case HasEntry(iid, a, obtainedAt) =>
      if a !in w.tokens || Valid(Conn(a, obtainedAt), w.tokens[a], now) then Idle else Wanting(iid, a)
    case Waiting(iid, a, lock) => Inside(iid, a, lock)
    case Inside(iid, a, lock) => Reread(iid, a, lock, if iid in w.conns then Some(w.conns[iid]) else None)
    case Reread(_, _, _, _) => Decide(th, w.tokens, now)
    case Presenting(iid, a, lock, conn, refresh) => Awaiting(iid, a, lock, conn, refresh)
    case Saving(iid, a, lock, conn, _) => Dating(iid, a, lock, conn)
    case Dating(iid, a, lock, _) => Leaving(iid, a, lock)
    case Exchanged(iid, a, _) => Connecting(iid, a)
    case _ => Idle
  }

  function Step(w: World, m: Move): World
    requires Enabled(w, m)
  {
    var th := w.threads[m.tid];
    var goes := m.act.Go?;
    World(
      conns :=
        if goes && th.Dating? then w.conns[th.iid := th.conn.(obtainedAt := m.now)]
        else if goes && th.Connecting? then w.conns[th.iid := Conn(th.account, m.now)]
        else if m.act.EraseConn? then w.conns - {m.act.iid} else w.conns,
      tokens :=
        if goes && th.Brings() then w.tokens[th.account := th.pair]
        else if m.act.EraseRow? then w.tokens - {m.act.account} else w.tokens,
      locks := if m.act.FindLock? then w.locks[th.account := Moved(w, m).lock] else w.locks,
      held :=
        if goes && th.Waiting? then w.held[th.lock := m.tid]
        else if goes && th.Leaving? then w.held - {th.lock} else w.held,
      threads := w.threads[m.tid := Moved(w, m)],
      clock := m.now,
      issued :=
        if m.act.Receive? then Issue(w.issued, m.act.pair, m.act.account)
        else if Redeems(w, m).Some? then Issue(w.issued, m.act.reply.value, th.account) else w.issued,
      redeemed := if Redeems(w, m).Some? then w.redeemed + {th.refresh} else w.redeemed,
      completed := if goes && th.Dating? then w.completed[(th.iid, th.account) := m.now] else w.completed)
  }

  ghost predicate EnabledRun(w: World, run: seq<Move>)
    decreases |run|
  {
    run == [] || (Enabled(w, run[0]) && EnabledRun(Step(w, run[0]), run[1..]))
  }

  function Run(w: World, run: seq<Move>): World
    requires EnabledRun(w, run)
    decreases |run|
  {
    if run == [] then w else Run(Step(w, run[0]), run[1..])
  }

  /** The refresh token a move presents to the provider. */
  function Presents(w: World, m: Move): Option<string> {
    if m.tid in w.threads && w.threads[m.tid].Presenting? && m.act == Go then Some(w.threads[m.tid].refresh) else None
  }

  /** The refresh token whose redemption a move reports. */
  function Redeems(w: World, m: Move): Option<string> {
    if m.tid in w.threads && w.threads[m.tid].Awaiting? && m.act.Answer? && m.act.reply.Some?
    then Some(w.threads[m.tid].refresh) else None
  }

  // ------------------------------------------------------------ mutual exclusion

  /** A lock is held by the one thread inside, and an account has one lock. */
  ghost predicate Exclusive(w: World) {
    && (forall t: Tid :: t in w.threads && w.threads[t].Holds() ==>
          w.threads[t].lock in w.held && w.held[w.threads[t].lock] == t)
    && (forall l: Lock :: l in w.held ==>
          w.held[l] in w.threads && w.threads[w.held[l]].Holds() && w.threads[w.held[l]].lock == l)
    && (forall t: Tid :: t in w.threads && (w.threads[t].Waiting? || w.threads[t].Holds()) ==>
          w.threads[t].account in w.locks && w.locks[w.threads[t].account] == w.threads[t].lock)
  }

  lemma OneInside(w: World, s: Tid, t: Tid)
    requires Exclusive(w) && s in w.threads && t in w.threads
    requires w.threads[s].Holds() && w.threads[t].Holds() && w.threads[s].account == w.threads[t].account
    ensures s == t
  {
  }

  /** A thread that keeps its lock, or keeps having none, changes nothing about the locks. */
  lemma ExclusiveSame(w: World, m: Move)
    requires Exclusive(w) && Enabled(w, m) && KeepsLock(w.threads[m.tid], Moved(w, m))
    requires !m.act.FindLock? && (m.act.Go? ==> !w.threads[m.tid].Waiting? && !w.threads[m.tid].Leaving?)
    ensures Exclusive(Step(w, m))
  {
  }

  predicate KeepsLock(th: Thread, th': Thread) {
    if th.Holds() then th'.Holds() && th'.lock == th.lock && th'.account == th.account
    else !th'.Holds() && (th'.Waiting? ==> th' == th)
  }

  lemma ExclusiveFind(w: World, m: Move)
    requires Exclusive(w) && Enabled(w, m) && m.act.FindLock?
    ensures Exclusive(Step(w, m))
  {
  }

  lemma ExclusiveEnter(w: World, m: Move)
    requires Exclusive(w) && Enabled(w, m) && m.act.Go? && w.threads[m.tid].Waiting?
    ensures Exclusive(Step(w, m))
  {
  }

  lemma ExclusiveLeave(w: World, m: Move)
    requires Exclusive(w) && Enabled(w, m) && m.act.Go? && w.threads[m.tid].Leaving?
    ensures Exclusive(Step(w, m))
  {
  }

  lemma ExclusiveStep(w: World, m: Move)
    requires Exclusive(w) && Enabled(w, m)
    ensures Exclusive(Step(w, m))
  {
    var th := w.threads[m.tid];
    if m.act.FindLock? {
      ExclusiveFind(w, m);
    } else if m.act.Go? && th.Waiting? {
      ExclusiveEnter(w, m);
    } else if m.act.Go? && th.Leaving? {
      ExclusiveLeave(w, m);
    } else {
      assert KeepsLock(th, Moved(w, m));
      ExclusiveSame(w, m);
    }
  }

  /** Somebody waiting for a lock means that it is free, or that the one inside can move. */
  lemma NoDeadlock(w: World, t: Tid)
    requires Exclusive(w) && t in w.threads && w.threads[t].Waiting?
    ensures Enabled(w, Move(t, Go, w.clock))
         || exists s: Tid, act :: Enabled(w, Move(s, act, w.clock)) && w.threads[s].Holds()
             && w.threads[s].lock == w.threads[t].lock
  {
    var l := w.threads[t].lock;
    if l in w.held {
      var s := w.held[l];
      assert Enabled(w, Move(s, if w.threads[s].Awaiting? then Answer(None) else Go, w.clock));
    }
  }

  // ------------------------------------------------------------ refresh tokens

  /** The refresh token a thread brings. */
  function Brought(th: Thread): string {
    if th.Brings() then th.pair.refresh else ""
  }

  /** Every refresh token about was issued, for the account it is found at. */
  ghost predicate Rooted(w: World) {
    && (forall a :: a in w.tokens && w.tokens[a].refresh != "" ==>
          w.tokens[a].refresh in w.issued && w.issued[w.tokens[a].refresh] == a)
    && (forall t: Tid :: t in w.threads && w.threads[t].Uses() ==>
          w.threads[t].refresh != "" && w.threads[t].refresh in w.issued
          && w.issued[w.threads[t].refresh] == w.threads[t].account)
    && (forall t: Tid :: t in w.threads && Brought(w.threads[t]) != "" ==>
          Brought(w.threads[t]) in w.issued && w.issued[Brought(w.threads[t])] == w.threads[t].account)
    && w.redeemed <= w.issued.Keys && "" !in w.issued
  }

  /** A refresh token not stored yet is nowhere else. */
  ghost predicate Unstored(w: World) {
    && (forall t: Tid :: t in w.threads && Brought(w.threads[t]) != "" ==> Brought(w.threads[t]) !in w.redeemed)
    && (forall t: Tid, a :: t in w.threads && Brought(w.threads[t]) != "" && a in w.tokens ==>
          Brought(w.threads[t]) != w.tokens[a].refresh)
    && forall s: Tid, t: Tid :: s in w.threads && t in w.threads ==> Apart(w.threads[s], w.threads[t], s == t)
  }

  /** The second thread's token, not stored yet, is neither in use nor brought by the first, if that is another. */
  predicate Apart(first: Thread, second: Thread, same: bool) {
    Brought(second) != "" ==>
      (first.Uses() ==> first.refresh != Brought(second)) && (!same ==> Brought(first) != Brought(second))
  }

  /** A refresh token in use is unredeemed, and a redeemed one in a row is about to be replaced. */
  ghost predicate Replaced(w: World) {
    && (forall t: Tid :: t in w.threads && w.threads[t].Uses() ==> w.threads[t].refresh !in w.redeemed)
    && (forall a :: a in w.tokens && w.tokens[a].refresh in w.redeemed ==> BeingSaved(w, a))
  }

  ghost predicate BeingSaved(w: World, a: Account) {
    exists t: Tid :: t in w.threads && w.threads[t].Saving? && w.threads[t].account == a
  }

  ghost predicate Inv(w: World) {
    Exclusive(w) && Rooted(w) && Unstored(w) && Replaced(w)
  }

  // ------------------------------------------------------------ what each step does to them

  /** Steps that bring no token, store none and use none they did not use before. */
  predicate Quiet(w: World, m: Move)
    requires Enabled(w, m)
  {
    var th, th' := w.threads[m.tid], Moved(w, m);
    && !th.Brings() && !th'.Brings() && Redeems(w, m) == None && !m.act.Receive?
    && (th'.Uses() ==> th.Uses() && th'.refresh == th.refresh && th'.account == th.account)
  }

  lemma QuietRooted(w: World, m: Move)
    requires Rooted(w) && Enabled(w, m) && Quiet(w, m)
    ensures Rooted(Step(w, m))
  {
  }

  lemma QuietUnstored(w: World, m: Move)
    requires Unstored(w) && Enabled(w, m) && Quiet(w, m)
    ensures Unstored(Step(w, m))
  {
  }

  lemma StillBeingSaved(w: World, m: Move, a: Account)
    requires Enabled(w, m) && BeingSaved(w, a)
    requires w.threads[m.tid].Saving? ==> w.threads[m.tid].account != a
    ensures BeingSaved(Step(w, m), a)
  {
    var t: Tid :| t in w.threads && w.threads[t].Saving? && w.threads[t].account == a;
    assert t in Step(w, m).threads && Step(w, m).threads[t] == w.threads[t];
  }

  lemma QuietReplaced(w: World, m: Move)
    requires Replaced(w) && Enabled(w, m) && Quiet(w, m)
    ensures Replaced(Step(w, m))
  {
    var w' := Step(w, m);
    forall a | a in w'.tokens && w'.tokens[a].refresh in w'.redeemed
      ensures BeingSaved(w', a)
    {
      StillBeingSaved(w, m, a);
    }
  }

  /** A thread that takes a refresh token from the row finds it unredeemed: nobody else is inside. */
  lemma TakeUnredeemed(w: World, tid: Tid)
    requires Inv(w) && tid in w.threads && w.threads[tid].Reread? && w.threads[tid].account in w.tokens
    ensures w.tokens[w.threads[tid].account].refresh !in w.redeemed
  {
    var a := w.threads[tid].account;
    if w.tokens[a].refresh in w.redeemed {
      var t: Tid :| t in w.threads && w.threads[t].Saving? && w.threads[t].account == a;
      OneInside(w, t, tid);
    }
  }

  predicate Takes(w: World, m: Move)
    requires Enabled(w, m)
  {
    m.act.Go? && w.threads[m.tid].Reread? && Moved(w, m).Presenting?
  }

  lemma TakeRooted(w: World, m: Move)
    requires Rooted(w) && Enabled(w, m) && Takes(w, m)
    ensures Rooted(Step(w, m))
  {
  }

  lemma TakeUnstored(w: World, m: Move)
    requires Unstored(w) && Enabled(w, m) && Takes(w, m)
    ensures Unstored(Step(w, m))
  {
  }

  lemma TakeReplaced(w: World, m: Move)
    requires Inv(w) && Enabled(w, m) && Takes(w, m)
    ensures Replaced(Step(w, m))
  {
    TakeUnredeemed(w, m.tid);
    forall a | a in w.tokens && w.tokens[a].refresh in w.redeemed
      ensures BeingSaved(Step(w, m), a)
    {
      StillBeingSaved(w, m, a);
    }
  }

  lemma ReceiveRooted(w: World, m: Move)
    requires Rooted(w) && Enabled(w, m) && m.act.Receive?
    ensures Rooted(Step(w, m))
  {
  }

  lemma ReceiveUnstored(w: World, m: Move)
    requires Rooted(w) && Unstored(w) && Enabled(w, m) && m.act.Receive?
    ensures Unstored(Step(w, m))
  {
  }

  lemma ReceiveReplaced(w: World, m: Move)
    requires Replaced(w) && Enabled(w, m) && m.act.Receive?
    ensures Replaced(Step(w, m))
  {
    forall a | a in w.tokens && w.tokens[a].refresh in w.redeemed
      ensures BeingSaved(Step(w, m), a)
    {
      StillBeingSaved(w, m, a);
    }
  }

  lemma RedeemRooted(w: World, m: Move)
    requires Rooted(w) && Enabled(w, m) && Redeems(w, m).Some?
    ensures Rooted(Step(w, m))
  {
  }

  lemma RedeemUnstored(w: World, m: Move)
    requires Rooted(w) && Unstored(w) && Enabled(w, m) && Redeems(w, m).Some?
    ensures Unstored(Step(w, m))
  {
  }

  /** The redeemed token is in no other use, since uses of one account exclude each other. */
  lemma RedeemReplaced(w: World, m: Move)
    requires Inv(w) && Enabled(w, m) && Redeems(w, m).Some?
    ensures Replaced(Step(w, m))
  {
    var w', th := Step(w, m), w.threads[m.tid];
    forall t: Tid | t in w'.threads && w'.threads[t].Uses()
      ensures w'.threads[t].refresh !in w'.redeemed
    {
      if w.threads[t].account == th.account {
        OneInside(w, t, m.tid);
      }
    }
    forall a | a in w'.tokens && w'.tokens[a].refresh in w'.redeemed
      ensures BeingSaved(w', a)
    {
      if w.tokens[a].refresh == th.refresh {
        assert w'.threads[m.tid].Saving? && w'.threads[m.tid].account == a;
      } else {
        StillBeingSaved(w, m, a);
      }
    }
  }

  predicate Stores(w: World, m: Move)
    requires Enabled(w, m)
  {
    m.act.Go? && w.threads[m.tid].Brings()
  }

  lemma StoreRooted(w: World, m: Move)
    requires Rooted(w) && Enabled(w, m) && Stores(w, m)
    ensures Rooted(Step(w, m))
  {
  }

  lemma StoreUnstored(w: World, m: Move)
    requires Unstored(w) && Enabled(w, m) && Stores(w, m)
    ensures Unstored(Step(w, m))
  {
    var w', th := Step(w, m), w.threads[m.tid];
    assert Brought(Moved(w, m)) == "" && !Moved(w, m).Uses();
    forall t: Tid | t in w'.threads && Brought(w'.threads[t]) != ""
      ensures Brought(w'.threads[t]) != th.pair.refresh
    {
      assert t != m.tid && Apart(w.threads[m.tid], w.threads[t], false);
    }
    forall s: Tid, t: Tid | s in w'.threads && t in w'.threads
      ensures Apart(w'.threads[s], w'.threads[t], s == t)
    {
      assert Apart(w.threads[s], w.threads[t], s == t);
    }
  }

  lemma StoreReplaced(w: World, m: Move)
    requires Rooted(w) && Unstored(w) && Replaced(w) && Enabled(w, m) && Stores(w, m)
    ensures Replaced(Step(w, m))
  {
    var w' := Step(w, m);
    forall a | a in w'.tokens && w'.tokens[a].refresh in w'.redeemed
      ensures BeingSaved(w', a)
    {
      StillBeingSaved(w, m, a);
    }
  }

  lemma StepKeeps(w: World, m: Move)
    requires Inv(w) && Enabled(w, m)
    ensures Inv(Step(w, m))
  {
    ExclusiveStep(w, m);
    if m.act.Receive? {
      ReceiveRooted(w, m);
      ReceiveUnstored(w, m);
      ReceiveReplaced(w, m);
    } else if Redeems(w, m).Some? {
      RedeemRooted(w, m);
      RedeemUnstored(w, m);
      RedeemReplaced(w, m);
    } else if Takes(w, m) {
      TakeRooted(w, m);
      TakeUnstored(w, m);
      TakeReplaced(w, m);
    } else if Stores(w, m) {
      StoreRooted(w, m);
      StoreUnstored(w, m);
      StoreReplaced(w, m);
    } else {
      IsQuiet(w, m);
      QuietRooted(w, m);
      QuietUnstored(w, m);
      QuietReplaced(w, m);
    }
  }

  lemma IsQuiet(w: World, m: Move)
    requires Enabled(w, m) && !m.act.Receive? && Redeems(w, m) == None && !Takes(w, m) && !Stores(w, m)
    ensures Quiet(w, m)
  {
  }

  // ------------------------------------------------------------ runs

  /** Before anything is connected, with any threads all idle. */
  ghost predicate Initial(w: World) {
    && w.conns == map[] && w.tokens == map[] && w.held == map[] && w.issued == map[] && w.redeemed == {}
    && w.completed == map[] && (forall t: Tid :: t in w.threads ==> w.threads[t].Idle?)
  }

  lemma {:induction false} RunKeeps(w: World, run: seq<Move>)
    requires Inv(w) && EnabledRun(w, run)
    ensures Inv(Run(w, run))
    decreases |run|
  {
    if run != [] {
      StepKeeps(w, run[0]);
      RunKeeps(Step(w, run[0]), run[1..]);
    }
  }

  /** The world before each move of a run. */
  function Worlds(w: World, run: seq<Move>): (r: seq<World>)
    requires EnabledRun(w, run)
    ensures |r| == |run|
    decreases |run|
  {
    if run == [] then [] else [w] + Worlds(Step(w, run[0]), run[1..])
  }

  lemma InitialHolds(w: World)
    requires Initial(w)
    ensures Inv(w)
  {
  }

  /** Each world of a run is reached by the step before it. */
  lemma {:induction false} WorldAt(w: World, run: seq<Move>, j: nat)
    requires EnabledRun(w, run) && j < |run|
    ensures var ws := Worlds(w, run);
            && ws[0] == w && Enabled(ws[j], run[j]) && (j + 1 < |run| ==> ws[j + 1] == Step(ws[j], run[j]))
    decreases |run|
  {
    if j > 0 {
      WorldAt(Step(w, run[0]), run[1..], j - 1);
    }
  }

  lemma {:induction false} InvAt(w: World, run: seq<Move>, j: nat)
    requires Initial(w) && EnabledRun(w, run) && j < |run|
    ensures Inv(Worlds(w, run)[j])
  {
    WorldAt(w, run, j);
    InitialHolds(w);
    if j > 0 {
      WorldAt(w, run, j - 1);
      InvAt(w, run, j - 1);
      StepKeeps(Worlds(w, run)[j - 1], run[j - 1]);
    }
  }

  lemma {:induction false} RedeemedStays(w: World, run: seq<Move>, i: nat, j: nat)
    requires EnabledRun(w, run) && i <= j < |run|
    ensures Worlds(w, run)[i].redeemed <= Worlds(w, run)[j].redeemed
  {
    if i < j {
      WorldAt(w, run, j - 1);
      RedeemedStays(w, run, i, j - 1);
    }
  }

  /** A refresh token that has been redeemed is never presented again. */
  lemma {:induction false} NeverPresentedAgain(w: World, run: seq<Move>, i: nat, j: nat)
    requires Initial(w) && EnabledRun(w, run) && i < j < |run|
    ensures var ws := Worlds(w, run);
            Redeems(ws[i], run[i]).Some? ==> Presents(ws[j], run[j]) != Redeems(ws[i], run[i])
  {
    WorldAt(w, run, i);
    RedeemedStays(w, run, i + 1, j);
    InvAt(w, run, j);
  }

  /** At any time at most one refresh of an account is under way. */
  lemma {:induction false} OneRefreshAtATime(w: World, run: seq<Move>, s: Tid, t: Tid)
    requires Initial(w) && EnabledRun(w, run)
    ensures var end := Run(w, run);
            (s in end.threads && t in end.threads && end.threads[s].Awaiting? && end.threads[t].Awaiting?
             && end.threads[s].account == end.threads[t].account) ==> s == t
  {
    InitialHolds(w);
    RunKeeps(w, run);
  }

  /** In move `k` thread `t` is answered about the token it presented. */
  ghost predicate AnsweredAt(w: World, run: seq<Move>, k: nat, t: Tid, token: string)
    requires EnabledRun(w, run)
  {
    && k < |run| && run[k].tid == t && run[k].act.Answer?
    && var ws := Worlds(w, run); t in ws[k].threads && ws[k].threads[t].Awaiting? && ws[k].threads[t].refresh == token
  }

  /** Whoever has presented a token waits for the answer. */
  lemma {:induction false} AwaitsAnswer(w: World, run: seq<Move>, i: nat, j: nat, token: string)
    requires EnabledRun(w, run) && i < j < |run| && Presents(Worlds(w, run)[i], run[i]) == Some(token)
    ensures var t := run[i].tid; var end := Worlds(w, run)[j];
            || (t in end.threads && end.threads[t].Awaiting? && end.threads[t].refresh == token)
            || exists k: nat :: i < k < j && AnsweredAt(w, run, k, t, token)
  {
    WorldAt(w, run, j - 1);
    if i < j - 1 {
      AwaitsAnswer(w, run, i, j - 1, token);
      var t := run[i].tid;
      if run[j - 1].tid == t && !exists k: nat :: i < k < j - 1 && AnsweredAt(w, run, k, t, token) {
        assert AnsweredAt(w, run, j - 1, t, token);
      }
    }
  }

  /**
  Even when answers are lost: a token is presented a second time only after its first
  presentation was answered, and answered with a failure.
  */
  lemma {:induction false} PresentedTwice(w: World, run: seq<Move>, i: nat, j: nat, token: string)
    requires Initial(w) && EnabledRun(w, run) && i < j < |run|
    requires Presents(Worlds(w, run)[i], run[i]) == Some(token) && Presents(Worlds(w, run)[j], run[j]) == Some(token)
    ensures exists k: nat :: i < k < j && AnsweredAt(w, run, k, run[i].tid, token) && run[k].act.reply == None
  {
    var t := run[i].tid;
    AwaitsAnswer(w, run, i, j, token);
    InvAt(w, run, j);
    var end := Worlds(w, run)[j];
    if t in end.threads {
      NotBoth(end, t, run[j].tid);
    }
    var k: nat :| i < k < j && AnsweredAt(w, run, k, t, token);
    NeverPresentedAgain(w, run, k, j);
  }

  /** A token that one thread is about to present no thread awaits an answer for. */
  lemma NotBoth(w: World, s: Tid, t: Tid)
    requires Inv(w) && s in w.threads && t in w.threads && w.threads[t].Presenting?
    ensures !(w.threads[s].Awaiting? && w.threads[s].refresh == w.threads[t].refresh)
  {
    if w.threads[s].Awaiting? && w.threads[s].refresh == w.threads[t].refresh {
      OneInside(w, s, t);
    }
  }

  // ------------------------------------------------------------ refreshes are spaced

  /** The provider's pairs last at least `life` seconds. */
  predicate Lasting(m: Move, life: int) {
    match m.act
    case Receive(_, _, pair) => pair.expiresIn >= life
    case Answer(Some(pair)) => pair.expiresIn >= life
    case _ => true
  }

  /** No connection is dated before a completed refresh of it, as stored and as read again. */
  ghost predicate DatedAfter(w: World) {
    && (forall i, a :: (i, a) in w.completed ==>
          w.completed[(i, a)] <= w.clock && (i in w.conns ==> w.completed[(i, a)] <= w.conns[i].obtainedAt))
    && (forall t: Tid :: t in w.threads && w.threads[t].Reread? && w.threads[t].entry.Some? ==>
          var key := (w.threads[t].iid, w.threads[t].account);
          key in w.completed ==> w.completed[key] <= w.threads[t].entry.value.obtainedAt)
  }

  ghost predicate AllLasting(w: World, life: int) {
    && (forall a :: a in w.tokens ==> w.tokens[a].expiresIn >= life)
    && (forall t: Tid :: t in w.threads && w.threads[t].Brings() ==> w.threads[t].pair.expiresIn >= life)
  }

  /** Whoever uses a refresh token finds the last refresh of the same connection long past. */
  ghost predicate LongPast(w: World, life: int) {
    forall t: Tid :: t in w.threads && w.threads[t].Uses() ==>
      var key := (w.threads[t].iid, w.threads[t].account);
      key in w.completed ==> w.completed[key] + (life - REFRESH_MARGIN) as real <= w.clock
  }

  lemma DatedAfterStep(w: World, m: Move)
    requires Exclusive(w) && DatedAfter(w) && Enabled(w, m)
    ensures DatedAfter(Step(w, m))
  {
    var w', th := Step(w, m), w.threads[m.tid];
    forall t: Tid | t in w'.threads && w'.threads[t].Reread? && w'.threads[t].entry.Some?
      ensures var key := (w'.threads[t].iid, w'.threads[t].account);
              key in w'.completed ==> w'.completed[key] <= w'.threads[t].entry.value.obtainedAt
    {
      if t != m.tid && th.Dating? && th.account == w.threads[t].account {
        OneInside(w, t, m.tid);
      }
    }
  }

  lemma AllLastingStep(w: World, m: Move, life: int)
    requires AllLasting(w, life) && Enabled(w, m) && Lasting(m, life)
    ensures AllLasting(Step(w, m), life)
  {
  }

  lemma LongPastStep(w: World, m: Move, life: int)
    requires Exclusive(w) && DatedAfter(w) && AllLasting(w, life) && LongPast(w, life) && 0 < life
    requires Enabled(w, m)
    ensures LongPast(Step(w, m), life)
  {
    var w', th := Step(w, m), w.threads[m.tid];
    forall t: Tid | t in w'.threads && w'.threads[t].Uses()
      ensures var key := (w'.threads[t].iid, w'.threads[t].account);
              key in w'.completed ==> w'.completed[key] + (life - REFRESH_MARGIN) as real <= w'.clock
    {
      if t != m.tid && th.Dating? && th.account == w.threads[t].account {
        OneInside(w, t, m.tid);
      }
    }
  }

  ghost predicate Timed(w: World, life: int) {
    DatedAfter(w) && AllLasting(w, life) && LongPast(w, life)
  }

  lemma {:induction false} TimedAt(w: World, run: seq<Move>, life: int, j: nat)
    requires Initial(w) && 0 < life && EnabledRun(w, run) && j < |run|
    requires forall i :: 0 <= i < |run| ==> Lasting(run[i], life)
    ensures Timed(Worlds(w, run)[j], life)
  {
    WorldAt(w, run, j);
    if j > 0 {
      var v := Worlds(w, run)[j - 1];
      WorldAt(w, run, j - 1);
      InvAt(w, run, j - 1);
      TimedAt(w, run, life, j - 1);
      DatedAfterStep(v, run[j - 1]);
      AllLastingStep(v, run[j - 1], life);
      LongPastStep(v, run[j - 1], life);
    }
  }

  /** The refresh whose end a move records: the pair is stored, and the connection dated. */
  function Completes(w: World, m: Move): Option<(Iid, Account)> {
    if m.tid in w.threads && w.threads[m.tid].Dating? && m.act == Go
    then Some((w.threads[m.tid].iid, w.threads[m.tid].account)) else None
  }

  /** The refresh during which a move presents a token. */
  function PresentsFor(w: World, m: Move): Option<(Iid, Account)> {
    if Presents(w, m).Some? then Some((w.threads[m.tid].iid, w.threads[m.tid].account)) else None
  }

  /** A refresh was completed at `at` or later. */
  ghost predicate DoneBy(w: World, key: (Iid, Account), at: real) {
    key in w.completed && at <= w.completed[key]
  }

  lemma CompletesRecords(w: World, m: Move)
    requires Enabled(w, m) && Completes(w, m).Some?
    ensures DoneBy(Step(w, m), Completes(w, m).value, m.now)
  {
  }

  lemma DoneStep(w: World, m: Move, key: (Iid, Account), at: real)
    requires Enabled(w, m) && DoneBy(w, key, at) && DatedAfter(w)
    ensures DoneBy(Step(w, m), key, at)
  {
  }

  lemma PresentsLate(w: World, m: Move, life: int, at: real)
    requires Enabled(w, m) && LongPast(w, life) && PresentsFor(w, m).Some? && DoneBy(w, PresentsFor(w, m).value, at)
    ensures m.now >= at + (life - REFRESH_MARGIN) as real
  {
  }

  lemma {:induction false} DoneStays(w: World, run: seq<Move>, life: int, i: nat, j: nat, key: (Iid, Account), at: real)
    requires Initial(w) && 0 < life && EnabledRun(w, run) && i <= j < |run|
    requires forall i :: 0 <= i < |run| ==> Lasting(run[i], life)
    requires DoneBy(Worlds(w, run)[i], key, at)
    ensures DoneBy(Worlds(w, run)[j], key, at)
  {
    if i < j {
      WorldAt(w, run, j - 1);
      TimedAt(w, run, life, j - 1);
      DoneStays(w, run, life, i, j - 1, key, at);
      DoneStep(Worlds(w, run)[j - 1], run[j - 1], key, at);
    }
  }

  /** After a refresh for an installation and account, the next one comes a token's life, less the margin, later. */
  lemma {:induction false} SpacedRefreshes(w: World, run: seq<Move>, life: int, i: nat, j: nat)
    requires Initial(w) && EnabledRun(w, run) && 0 < life && i < j < |run|
    requires forall i :: 0 <= i < |run| ==> Lasting(run[i], life)
    ensures var ws := Worlds(w, run);
            Completes(ws[i], run[i]).Some? && PresentsFor(ws[j], run[j]) == Completes(ws[i], run[i])
            ==> run[j].now >= run[i].now + (life - REFRESH_MARGIN) as real
  {
    var ws := Worlds(w, run);
    if Completes(ws[i], run[i]).Some? && PresentsFor(ws[j], run[j]) == Completes(ws[i], run[i]) {
      var key := Completes(ws[i], run[i]).value;
      WorldAt(w, run, i);
      CompletesRecords(ws[i], run[i]);
      DoneStays(w, run, life, i + 1, j, key, run[i].now);
      TimedAt(w, run, life, j);
      WorldAt(w, run, j);
      PresentsLate(ws[j], run[j], life, run[i].now);
    }
  }
}
