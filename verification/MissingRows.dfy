/**
When can a connection be left without its token row, given that refreshes, callbacks and
deletions interleave step by step?  `Safe` is the exact answer for a moment, `Loses` for a
deletion; `ConnBack`, `RowBack` and `DeletionUndone` say when a refresh brings back what was
deleted meanwhile.
*/
module MissingRows {
  import opened Options
  import opened Tables
  import opened SingleFlight

  /** Every connection has its row. */
  ghost predicate Rowed(w: World) {
    forall i :: i in w.conns ==> w.conns[i].account in w.tokens
  }

  /** The steps that take a row away from a connection, or store a connection without one. */
  ghost predicate Unrows(w: World, m: Move)
    requires Enabled(w, m)
  {
    var th := w.threads[m.tid];
    || (m.act.EraseRow? && exists i :: i in w.conns && w.conns[i].account == m.act.account)
    || (m.act.Go? && th.Dating? && th.conn.account !in w.tokens)
    || (m.act.Go? && th.Connecting? && th.account !in w.tokens)
  }

  lemma RowedStep(w: World, m: Move)
    requires Rowed(w) && Enabled(w, m)
    ensures Rowed(Step(w, m)) <==> !Unrows(w, m)
  {
    var w', th := Step(w, m), w.threads[m.tid];
    if Unrows(w, m) && m.act.Go? {
      assert th.iid in w'.conns && w'.conns[th.iid].account !in w'.tokens;
    }
  }

  // ------------------------------------------------------------ what threads carry

  /** The connection a refreshing thread has read again, to be stored in the end. */
  function Carried(th: Thread): Option<Conn> {
    match th
    case Reread(_, _, _, entry) => entry
    case Presenting(_, _, _, conn, _) => Some(conn)
    case Awaiting(_, _, _, conn, _) => Some(conn)
    case Saving(_, _, _, conn, _) => Some(conn)
    case _ => None
  }

  /**
  The account whose row a thread relies on for the connection it will store.  Until its
  first write a refresh relies on nothing, unless the connection names another account.
  */
  function Needed(th: Thread): Option<Account> {
    match th
    case Dating(_, _, _, conn) => Some(conn.account)
    case Connecting(_, account) => Some(account)
    case _ =>
      var carried := Carried(th);
      if carried.Some? && carried.value.account != th.account then Some(carried.value.account) else None
  }

  ghost predicate Provided(th: Thread, tokens: map<Account, Pair>) {
    Needed(th).Some? ==> Needed(th).value in tokens
  }

  ghost predicate Safe(w: World) {
    Rowed(w) && forall t: Tid :: t in w.threads ==> Provided(w.threads[t], w.tokens)
  }

  /** A connection or a thread relies on the row. */
  ghost predicate Loses(w: World, a: Account) {
    || (exists i :: i in w.conns && w.conns[i].account == a)
    || (exists t: Tid :: t in w.threads && Needed(w.threads[t]) == Some(a))
  }

  lemma ProvidedStep(w: World, m: Move)
    requires Safe(w) && Enabled(w, m) && !m.act.EraseRow?
    ensures Provided(Moved(w, m), Step(w, m).tokens)
  {
  }

  lemma SafeStep(w: World, m: Move)
    requires Safe(w) && Enabled(w, m) && !m.act.EraseRow?
    ensures Safe(Step(w, m))
  {
    ProvidedStep(w, m);
    RowedStep(w, m);
    var w' := Step(w, m);
    forall t: Tid | t in w'.threads
      ensures Provided(w'.threads[t], w'.tokens)
    {
      if t != m.tid {
        assert Provided(w.threads[t], w.tokens);
      }
    }
  }

  /** Deleting a row is harmless exactly if nothing relies on it. */
  lemma SafeErasure(w: World, m: Move)
    requires Safe(w) && Enabled(w, m) && m.act.EraseRow?
    ensures Safe(Step(w, m)) <==> !Loses(w, m.act.account)
  {
    var w', a := Step(w, m), m.act.account;
    RowedStep(w, m);
    assert w'.threads[m.tid] == w.threads[m.tid];
    if t: Tid :| t in w.threads && Needed(w.threads[t]) == Some(a) {
      assert w'.threads[t] == w.threads[t] && !Provided(w'.threads[t], w'.tokens);
    } else {
      forall t: Tid | t in w'.threads
        ensures Provided(w'.threads[t], w'.tokens)
      {
        assert w'.threads[t] == w.threads[t] && Provided(w.threads[t], w.tokens);
      }
    }
  }

  // ------------------------------------------------------------ runs

  /** In this run every deleted row is one that nothing relies on. */
  ghost predicate CarefulRun(w: World, run: seq<Move>)
    requires EnabledRun(w, run)
    decreases |run|
  {
    run == [] || ((run[0].act.EraseRow? ==> !Loses(w, run[0].act.account)) && CarefulRun(Step(w, run[0]), run[1..]))
  }

  lemma {:induction false} CarefulKeepsSafe(w: World, run: seq<Move>)
    requires Safe(w) && EnabledRun(w, run) && CarefulRun(w, run)
    ensures Safe(Run(w, run))
    decreases |run|
  {
    if run != [] {
      if run[0].act.EraseRow? {
        SafeErasure(w, run[0]);
      } else {
        SafeStep(w, run[0]);
      }
      CarefulKeepsSafe(Step(w, run[0]), run[1..]);
    }
  }

  /** No row is ever missing if no row is deleted on which a connection or a thread relies. */
  lemma {:induction false} RowsKept(w: World, run: seq<Move>)
    requires Initial(w) && EnabledRun(w, run) && CarefulRun(w, run)
    ensures Rowed(Run(w, run)) && Safe(Run(w, run))
  {
    CarefulKeepsSafe(w, run);
  }

  predicate NoRowErased(run: seq<Move>) {
    forall m :: m in run ==> !m.act.EraseRow?
  }

  /** Without any further deletion of rows a connection can come to lack its row. */
  ghost predicate CanLose(w: World) {
    exists run :: LosesBy(w, run)
  }

  ghost predicate LosesBy(w: World, run: seq<Move>) {
    EnabledRun(w, run) && NoRowErased(run) && !Rowed(Run(w, run))
  }

  lemma {:induction false} SafeForGood(w: World, run: seq<Move>)
    requires Safe(w) && EnabledRun(w, run) && NoRowErased(run)
    ensures Rowed(Run(w, run))
    decreases |run|
  {
    if run != [] {
      SafeStep(w, run[0]);
      SafeForGood(Step(w, run[0]), run[1..]);
    }
  }

  lemma LosesEarlier(w: World, m: Move)
    requires Enabled(w, m) && !m.act.EraseRow? && CanLose(Step(w, m))
    ensures CanLose(w)
  {
    var rest :| LosesBy(Step(w, m), rest);
    var run := [m] + rest;
    assert run[1..] == rest;
    assert LosesBy(w, run);
  }

  lemma LosesNow(w: World)
    requires !Rowed(w)
    ensures CanLose(w)
  {
    assert LosesBy(w, []);
  }

  /** A thread at its last write stores a connection without a row. */
  lemma LastWriteLoses(w: World, t: Tid)
    requires t in w.threads && (w.threads[t].Dating? || w.threads[t].Connecting?) && !Provided(w.threads[t], w.tokens)
    ensures CanLose(w)
  {
    var m, th := Move(t, Go, w.clock), w.threads[t];
    var w' := Step(w, m);
    assert th.iid in w'.conns && w'.conns[th.iid].account !in w'.tokens;
    LosesNow(w');
    LosesEarlier(w, m);
  }

  lemma SavingLoses(w: World, t: Tid)
    requires t in w.threads && w.threads[t].Saving? && !Provided(w.threads[t], w.tokens)
    ensures CanLose(w)
  {
    var m := Move(t, Go, w.clock);
    LastWriteLoses(Step(w, m), t);
    LosesEarlier(w, m);
  }

  lemma AwaitingLoses(w: World, t: Tid)
    requires t in w.threads && w.threads[t].Awaiting? && !Provided(w.threads[t], w.tokens)
    ensures CanLose(w)
  {
    var m := Move(t, Answer(Some(Pair("", 0))), w.clock);
    SavingLoses(Step(w, m), t);
    LosesEarlier(w, m);
  }

  lemma PresentingLoses(w: World, t: Tid)
    requires t in w.threads && w.threads[t].Presenting? && !Provided(w.threads[t], w.tokens)
    ensures CanLose(w)
  {
    var m := Move(t, Go, w.clock);
    AwaitingLoses(Step(w, m), t);
    LosesEarlier(w, m);
  }

  /** A thread that has read again goes on to refresh if it finds a token that has run out. */
  lemma RereadLoses(w: World, t: Tid)
    requires t in w.threads && w.threads[t].Reread? && !Provided(w.threads[t], w.tokens)
    requires var th := w.threads[t];
             th.account in w.tokens && w.tokens[th.account].refresh != "" && w.tokens[th.account].expiresIn == 0
    ensures CanLose(w)
  {
    var m := Move(t, Go, w.clock);
    PresentingLoses(Step(w, m), t);
    LosesEarlier(w, m);
  }

  /** A callback that has stored such a token for the account gets it there. */
  lemma StoredLoses(w: World, t: Tid, s: Tid)
    requires t in w.threads && w.threads[t].Reread? && !Provided(w.threads[t], w.tokens) && s in w.threads && s != t
    requires w.threads[s].Exchanged? && w.threads[s].account == w.threads[t].account
    requires w.threads[s].pair.refresh != "" && w.threads[s].pair.expiresIn == 0
    ensures CanLose(w)
  {
    var m := Move(s, Go, w.clock);
    var w' := Step(w, m);
    assert w'.threads[t] == w.threads[t];
    RereadLoses(w', t);
    LosesEarlier(w, m);
  }

  lemma ReadLoses(w: World, t: Tid, s: Tid)
    requires t in w.threads && w.threads[t].Reread? && !Provided(w.threads[t], w.tokens)
    requires s in w.threads && w.threads[s].Idle?
    ensures CanLose(w)
  {
    var refresh := NewToken(w.issued.Keys);
    var m := Move(s, Receive("", w.threads[t].account, Pair(refresh, 0)), w.clock);
    StoredLoses(Step(w, m), t, s);
    LosesEarlier(w, m);
  }

  /** A non-empty string longer than all of these. */
  lemma {:induction false} NewToken(taken: set<string>) returns (token: string)
    ensures token != "" && token !in taken && forall s :: s in taken ==> |s| < |token|
    decreases taken
  {
    token := "a";
    if taken != {} {
      var s :| s in taken;
      var rest := NewToken(taken - {s});
      token := rest + s + "a";
    }
  }

  /** As long as some thread is free, a row can come to be missing exactly if the state is not safe. */
  lemma SafeExactly(w: World, s: Tid)
    requires s in w.threads && w.threads[s].Idle?
    ensures Safe(w) <==> !CanLose(w)
  {
    if Safe(w) {
      forall run | EnabledRun(w, run) && NoRowErased(run)
        ensures !LosesBy(w, run)
      {
        SafeForGood(w, run);
      }
    } else if !Rowed(w) {
      LosesNow(w);
    } else {
      var t: Tid :| t in w.threads && !Provided(w.threads[t], w.tokens);
      match w.threads[t]
      case Reread(_, _, _, _) => ReadLoses(w, t, s);
      case Presenting(_, _, _, _, _) => PresentingLoses(w, t);
      case Awaiting(_, _, _, _, _) => AwaitingLoses(w, t);
      case Saving(_, _, _, _, _) => SavingLoses(w, t);
      case _ => LastWriteLoses(w, t);
    }
  }

  /**
  After any careful run, deleting a row lets a connection come to lack its row exactly if a
  connection points at it, a callback or a refresh is at its last write for it, or a
  refresh of another account has read a connection again that points at it.
  */
  lemma {:induction false} DeletionLoses(w: World, run: seq<Move>, m: Move)
    requires Initial(w) && EnabledRun(w, run) && CarefulRun(w, run)
    requires Enabled(Run(w, run), m) && m.act.EraseRow?
    ensures CanLose(Step(Run(w, run), m)) <==> Loses(Run(w, run), m.act.account)
  {
    RowsKept(w, run);
    SafeErasure(Run(w, run), m);
    SafeExactly(Step(Run(w, run), m), m.tid);
  }

  // ------------------------------------------------------------ deletions that are undone

  /** The thread is past its decision to refresh: it will store its connection, if it is answered with a pair. */
  predicate WillStore(th: Thread) {
    WillSave(th) || th.Dating?
  }

  /** And before that the pair. */
  predicate WillSave(th: Thread) {
    th.Presenting? || th.Awaiting? || th.Saving?
  }

  /** A run that ends when thread `t` is done; a refresh of its own is answered with a pair.  Others may do anything. */
  ghost predicate Visit(w: World, t: Tid, run: seq<Move>)
    decreases |run|
  {
    t in w.threads
    && if run == [] then w.threads[t].Idle?
       else && !w.threads[t].Idle? && Enabled(w, run[0]) && (run[0].tid == t ==> run[0].act != Answer(None))
            && Visit(Step(w, run[0]), t, run[1..])
  }

  lemma {:induction false} VisitRuns(w: World, t: Tid, run: seq<Move>)
    requires Visit(w, t, run)
    ensures EnabledRun(w, run)
    decreases |run|
  {
    if run != [] {
      VisitRuns(Step(w, run[0]), t, run[1..]);
    }
  }

  function StepsLeft(th: Thread): nat {
    match th
    case Inside(_, _, _) => 7
    case Reread(_, _, _, _) => 6
    case Presenting(_, _, _, _, _) => 5
    case Awaiting(_, _, _, _, _) => 4
    case Saving(_, _, _, _, _) => 3
    case Dating(_, _, _, _) => 2
    case _ => 1
  }

  lemma {:induction false} VisitExists(w: World, t: Tid) returns (run: seq<Move>)
    requires t in w.threads && w.threads[t].Holds()
    ensures Visit(w, t, run) && forall m :: m in run ==> m.tid == t
    decreases StepsLeft(w.threads[t])
  {
    var th := w.threads[t];
    var m := Move(t, if th.Awaiting? then Answer(Some(Pair("", 0))) else Go, w.clock);
    if th.Leaving? {
      run := [m];
      assert run[1..] == [];
    } else {
      var rest := VisitExists(Step(w, m), t);
      run := [m] + rest;
      assert run[1..] == rest;
    }
  }

  /** Another thread's move that neither stores the connection nor deletes it. */
  predicate SparesConn(w: World, m: Move, i: Iid)
    requires Enabled(w, m)
  {
    var th := w.threads[m.tid];
    m.act != EraseConn(i) && !(m.act.Go? && (th.Dating? || th.Connecting?) && th.iid == i)
  }

  /** Another thread's move that neither stores the row nor deletes it. */
  predicate SparesRow(w: World, m: Move, a: Account)
    requires Enabled(w, m)
  {
    var th := w.threads[m.tid];
    m.act != EraseRow(a) && !(m.act.Go? && th.Brings() && th.account == a)
  }

  /** Throughout the run the others leave the connection alone. */
  ghost predicate ConnSpared(w: World, t: Tid, run: seq<Move>, i: Iid)
    requires EnabledRun(w, run)
    decreases |run|
  {
    run == [] || ((run[0].tid != t ==> SparesConn(w, run[0], i)) && ConnSpared(Step(w, run[0]), t, run[1..], i))
  }

  ghost predicate RowSpared(w: World, t: Tid, run: seq<Move>, a: Account)
    requires EnabledRun(w, run)
    decreases |run|
  {
    run == [] || ((run[0].tid != t ==> SparesRow(w, run[0], a)) && RowSpared(Step(w, run[0]), t, run[1..], a))
  }

  /** In this move the thread decides to refresh. */
  predicate Decides(w: World, t: Tid, m: Move)
    requires Enabled(w, m)
  {
    m.tid == t && m.act.Go? && w.threads[t].Reread? && Moved(w, m).Presenting?
  }

  ghost predicate DecidesIn(w: World, t: Tid, run: seq<Move>)
    requires EnabledRun(w, run)
    decreases |run|
  {
    run != [] && (Decides(w, t, run[0]) || DecidesIn(Step(w, run[0]), t, run[1..]))
  }

  /** A step of the thread's own: what it does to the connection, and where it takes the thread. */
  lemma OwnConnStep(w: World, t: Tid, m: Move)
    requires Enabled(w, m) && m.tid == t && m.act != Answer(None) && w.threads[t].Holds()
    ensures var w', th, th' := Step(w, m), w.threads[t], Moved(w, m);
            && w'.conns == (if th.Dating? then w.conns[th.iid := th.conn.(obtainedAt := m.now)] else w.conns)
            && (th.Leaving? ==> th'.Idle?)
            && (!th.Leaving? ==> th'.Holds() && th'.iid == th.iid && th'.account == th.account)
            && (WillStore(th') <==> (WillStore(th) && !th.Dating?) || Decides(w, t, m))
            && (Decides(w, t, m) ==> th.entry.Some?)
  {
  }

  lemma OthersConnStep(w: World, t: Tid, m: Move, i: Iid)
    requires Enabled(w, m) && m.tid != t && t in w.threads && SparesConn(w, m, i)
    ensures var w' := Step(w, m);
            w'.threads[t] == w.threads[t] && (i in w'.conns <==> i in w.conns) && !Decides(w, t, m)
  {
  }

  /** Once stored, and left alone, the connection is there in the end. */
  lemma {:induction false} ConnStays(w: World, t: Tid, run: seq<Move>, i: Iid)
    requires Visit(w, t, run) && EnabledRun(w, run) && ConnSpared(w, t, run, i) && i in w.conns
    requires w.threads[t].Holds() || w.threads[t].Idle?
    ensures i in Run(w, run).conns
    decreases |run|
  {
    if run != [] {
      if run[0].tid == t {
        OwnConnStep(w, t, run[0]);
        IdleEnds(Step(w, run[0]), t, run[1..]);
      } else {
        OthersConnStep(w, t, run[0], i);
      }
      ConnStays(Step(w, run[0]), t, run[1..], i);
    }
  }

  /** A visit is over when the thread is idle. */
  lemma IdleEnds(w: World, t: Tid, run: seq<Move>)
    requires Visit(w, t, run)
    ensures w.threads[t].Idle? ==> run == []
  {
  }

  /**
  A connection that has been deleted while a thread is inside the lock for it, whatever
  happens in between: it is back when the thread is done exactly if the thread was past
  its decision to refresh, or decides so later.
  */
  lemma {:induction false} ConnBack(w: World, t: Tid, run: seq<Move>)
    requires Visit(w, t, run) && EnabledRun(w, run) && w.threads[t].Holds() && w.threads[t].iid !in w.conns
    requires ConnSpared(w, t, run, w.threads[t].iid)
    ensures w.threads[t].iid in Run(w, run).conns <==> WillStore(w.threads[t]) || DecidesIn(w, t, run)
    decreases |run|
  {
    var w', i := Step(w, run[0]), w.threads[t].iid;
    if run[0].tid != t {
      OthersConnStep(w, t, run[0], i);
      ConnBack(w', t, run[1..]);
    } else {
      OwnConnStep(w, t, run[0]);
      IdleEnds(w', t, run[1..]);
      if w.threads[t].Leaving? {
        assert run[1..] == [];
      } else if w.threads[t].Dating? {
        ConnStays(w', t, run[1..], i);
      } else {
        ConnBack(w', t, run[1..]);
      }
    }
  }

  /** A thread still to read again finds no connection, decides nothing, and brings none back. */
  lemma {:induction false} InsideFindsNothing(w: World, t: Tid, run: seq<Move>)
    requires Visit(w, t, run) && EnabledRun(w, run)
    requires w.threads[t].Inside? || (w.threads[t].Reread? && w.threads[t].entry == None) || w.threads[t].Leaving?
    requires w.threads[t].iid !in w.conns && ConnSpared(w, t, run, w.threads[t].iid)
    ensures !DecidesIn(w, t, run) && w.threads[t].iid !in Run(w, run).conns
    decreases |run|
  {
    var w' := Step(w, run[0]);
    if run[0].tid != t {
      OthersConnStep(w, t, run[0], w.threads[t].iid);
      InsideFindsNothing(w', t, run[1..]);
    } else {
      OwnConnStep(w, t, run[0]);
      IdleEnds(w', t, run[1..]);
      if w.threads[t].Leaving? {
        assert run[1..] == [];
      } else {
        InsideFindsNothing(w', t, run[1..]);
      }
    }
  }

  lemma OwnRowStep(w: World, t: Tid, m: Move)
    requires Enabled(w, m) && m.tid == t && m.act != Answer(None) && w.threads[t].Holds()
    requires var th := w.threads[t]; (th.Inside? || th.Reread?) ==> th.account !in w.tokens
    ensures var w', th, th' := Step(w, m), w.threads[t], Moved(w, m);
            && w'.tokens == (if th.Saving? then w.tokens[th.account := th.pair] else w.tokens)
            && (th.Leaving? ==> th'.Idle?)
            && (!th.Leaving? ==> th'.Holds() && th'.account == th.account)
            && (WillSave(th') <==> WillSave(th) && !th.Saving?) && !Decides(w, t, m)
            && (th'.Inside? || th'.Reread? ==> th.Inside?)
  {
  }

  lemma OthersRowStep(w: World, t: Tid, m: Move, a: Account)
    requires Enabled(w, m) && m.tid != t && t in w.threads && SparesRow(w, m, a)
    ensures var w' := Step(w, m);
            w'.threads[t] == w.threads[t] && (a in w'.tokens <==> a in w.tokens) && !Decides(w, t, m)
  {
  }

  lemma {:induction false} RowStays(w: World, t: Tid, run: seq<Move>, a: Account)
    requires Visit(w, t, run) && EnabledRun(w, run) && RowSpared(w, t, run, a) && a in w.tokens
    requires w.threads[t].Idle? || w.threads[t].Dating? || w.threads[t].Leaving?
    ensures a in Run(w, run).tokens
    decreases |run|
  {
    if run != [] {
      if run[0].tid == t {
        OwnRowStep(w, t, run[0]);
        OwnConnStep(w, t, run[0]);
        IdleEnds(Step(w, run[0]), t, run[1..]);
      } else {
        OthersRowStep(w, t, run[0], a);
      }
      RowStays(Step(w, run[0]), t, run[1..], a);
    }
  }

  /**
  A row that has been deleted while a thread is inside the lock of its account: it is back
  when the thread is done exactly if the thread was past its decision and had not stored
  its pair.  A thread short of its decision decides nothing without the row.
  */
  lemma {:induction false} RowBack(w: World, t: Tid, run: seq<Move>)
    requires Visit(w, t, run) && EnabledRun(w, run) && w.threads[t].Holds() && w.threads[t].account !in w.tokens
    requires RowSpared(w, t, run, w.threads[t].account)
    ensures w.threads[t].account in Run(w, run).tokens <==> WillSave(w.threads[t])
    ensures !DecidesIn(w, t, run)
    decreases |run|
  {
    var w', a := Step(w, run[0]), w.threads[t].account;
    if run[0].tid != t {
      OthersRowStep(w, t, run[0], a);
      RowBack(w', t, run[1..]);
    } else {
      OwnRowStep(w, t, run[0]);
      IdleEnds(w', t, run[1..]);
      if w.threads[t].Leaving? {
        assert run[1..] == [];
      } else if w.threads[t].Saving? {
        RowStays(w', t, run[1..], a);
        DecidedNoMore(w', t, run[1..]);
      } else {
        RowBack(w', t, run[1..]);
      }
    }
  }

  lemma {:induction false} DecidedNoMore(w: World, t: Tid, run: seq<Move>)
    requires Visit(w, t, run) && EnabledRun(w, run)
    requires w.threads[t].Idle? || w.threads[t].Dating? || w.threads[t].Leaving?
    ensures !DecidesIn(w, t, run)
    decreases |run|
  {
    if run != [] {
      DecidedNoMore(Step(w, run[0]), t, run[1..]);
    }
  }

  /** A run throughout which thread `t` is inside the lock; a refresh of its own is answered with a pair. */
  ghost predicate Within(w: World, t: Tid, run: seq<Move>)
    decreases |run|
  {
    t in w.threads && w.threads[t].Holds()
    && (run == []
        || (Enabled(w, run[0]) && (run[0].tid == t ==> run[0].act != Answer(None))
            && Within(Step(w, run[0]), t, run[1..])))
  }

  /** The connection is stored by the end of such a run, or will be. */
  lemma {:induction false} ConnWithin(w: World, t: Tid, run: seq<Move>)
    requires Within(w, t, run) && EnabledRun(w, run) && ConnSpared(w, t, run, w.threads[t].iid)
    ensures var th, end := w.threads[t], Run(w, run);
            && t in end.threads && end.threads[t].Holds()
            && end.threads[t].iid == th.iid && end.threads[t].account == th.account
            && (th.iid in end.conns || WillStore(end.threads[t])
                <==> th.iid in w.conns || WillStore(th) || DecidesIn(w, t, run))
    decreases |run|
  {
    if run != [] {
      if run[0].tid == t {
        OwnConnStep(w, t, run[0]);
      } else {
        OthersConnStep(w, t, run[0], w.threads[t].iid);
      }
      ConnWithin(Step(w, run[0]), t, run[1..]);
    }
  }

  /**
  A connection is deleted while a thread is inside the lock for it, and the row of its
  account later, while the same thread still is; any thread may move before, between and
  after.  The connection is back in the end exactly if the thread was past its decision
  when the connection was deleted, or decided before the row was; and the row exactly if
  the thread was past its decision when the row was deleted, and had not stored its pair.
  */
  lemma {:induction false} DeletionUndone(w: World, t: Tid, m1: Move, between: seq<Move>, m2: Move, after: seq<Move>)
    requires t in w.threads && w.threads[t].Holds()
    requires Enabled(w, m1) && m1.act == EraseConn(w.threads[t].iid)
    requires var w1 := Step(w, m1);
             Within(w1, t, between) && EnabledRun(w1, between) && ConnSpared(w1, t, between, w.threads[t].iid)
    requires var w2 := Run(Step(w, m1), between); Enabled(w2, m2) && m2.act == EraseRow(w.threads[t].account)
    requires var w3 := Step(Run(Step(w, m1), between), m2);
             && Visit(w3, t, after) && EnabledRun(w3, after)
             && ConnSpared(w3, t, after, w.threads[t].iid) && RowSpared(w3, t, after, w.threads[t].account)
    ensures var th, w2 := w.threads[t], Run(Step(w, m1), between);
            var end := Run(Step(w2, m2), after);
            && (th.iid in end.conns <==> WillStore(th) || DecidesIn(Step(w, m1), t, between))
            && t in w2.threads && (th.account in end.tokens <==> WillSave(w2.threads[t]))
  {
    var w1, i := Step(w, m1), w.threads[t].iid;
    ConnWithin(w1, t, between);
    var w2 := Run(w1, between);
    var w3 := Step(w2, m2);
    assert w3.threads[t] == w2.threads[t] && w3.conns == w2.conns;
    RowBack(w3, t, after);
    if i in w3.conns {
      ConnStays(w3, t, after, i);
    } else {
      ConnBack(w3, t, after);
    }
  }
}
