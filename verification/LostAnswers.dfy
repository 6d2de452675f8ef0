/**
A provider may carry out a refresh whose answer is lost: the thread is told of a failure,
and the redeemed token stays in its row.  When will it be presented again?  With every
thread idle, exactly if a connection still points at the row that holds it.
*/
module LostAnswers {
  import opened Options
  import opened Tables
  import opened OAuth
  import opened SingleFlight

  ghost predicate Quiet(w: World) {
    w.held == map[] && forall t: Tid :: t in w.threads ==> w.threads[t].Idle?
  }

  /** A connection points at a row with this refresh token. */
  ghost predicate Pointed(w: World, token: string) {
    exists i :: i in w.conns && PointsTo(w, i, token)
  }

  predicate PointsTo(w: World, i: Iid, token: string)
    requires i in w.conns
  {
    w.conns[i].account in w.tokens && w.tokens[w.conns[i].account].refresh == token
  }

  /** The last move of the run presents the token. */
  ghost predicate EndsPresenting(w: World, run: seq<Move>, token: string)
    decreases |run|
  {
    && run != [] && Enabled(w, run[0])
    && if |run| == 1 then Presents(w, run[0]) == Some(token) else EndsPresenting(Step(w, run[0]), run[1..], token)
  }

  ghost predicate CanPresent(w: World, token: string) {
    exists run :: EndsPresenting(w, run, token)
  }

  // ------------------------------------------------------------ the way to presenting it

  lemma PresentsEarlier(w: World, m: Move, token: string)
    requires Enabled(w, m) && CanPresent(Step(w, m), token)
    ensures CanPresent(w, token)
  {
    var rest :| EndsPresenting(Step(w, m), rest, token);
    var run := [m] + rest;
    assert run[1..] == rest;
    assert EndsPresenting(w, run, token);
  }

  /** Thread `t` is on its way to a refresh for connection `i`, whose row holds the token and has run out. */
  ghost predicate Ripe(w: World, t: Tid, i: Iid, token: string) {
    && t in w.threads && i in w.conns && PointsTo(w, i, token) && token != ""
    && !Valid(w.conns[i], w.tokens[w.conns[i].account], w.clock)
  }

  lemma PresentingPresents(w: World, t: Tid, token: string)
    requires t in w.threads && w.threads[t].Presenting? && w.threads[t].refresh == token
    ensures CanPresent(w, token)
  {
    assert EndsPresenting(w, [Move(t, Go, w.clock)], token);
  }

  lemma RereadPresents(w: World, t: Tid, i: Iid, token: string)
    requires Ripe(w, t, i, token) && w.threads[t].Reread?
    requires w.threads[t].account == w.conns[i].account && w.threads[t].entry == Some(w.conns[i])
    ensures CanPresent(w, token)
  {
    var m := Move(t, Go, w.clock);
    PresentingPresents(Step(w, m), t, token);
    PresentsEarlier(w, m, token);
  }

  lemma InsidePresents(w: World, t: Tid, i: Iid, token: string)
    requires Ripe(w, t, i, token) && w.threads[t].Inside?
    requires w.threads[t].iid == i && w.threads[t].account == w.conns[i].account
    ensures CanPresent(w, token)
  {
    var m := Move(t, Go, w.clock);
    RereadPresents(Step(w, m), t, i, token);
    PresentsEarlier(w, m, token);
  }

  lemma WaitingPresents(w: World, t: Tid, i: Iid, token: string)
    requires Ripe(w, t, i, token) && w.threads[t].Waiting? && w.threads[t].lock !in w.held
    requires w.threads[t].iid == i && w.threads[t].account == w.conns[i].account
    ensures CanPresent(w, token)
  {
    var m := Move(t, Go, w.clock);
    InsidePresents(Step(w, m), t, i, token);
    PresentsEarlier(w, m, token);
  }

  lemma WantingPresents(w: World, t: Tid, i: Iid, token: string)
    requires Ripe(w, t, i, token) && w.threads[t].Wanting? && w.held == map[]
    requires w.threads[t].iid == i && w.threads[t].account == w.conns[i].account
    ensures CanPresent(w, token)
  {
    var unused := NewLock(w.locks.Values);
    var m := Move(t, FindLock(unused), w.clock);
    WaitingPresents(Step(w, m), t, i, token);
    PresentsEarlier(w, m, token);
  }

  /** A lock object that no account has. */
  lemma {:induction false} NewLock(taken: set<Lock>) returns (l: Lock)
    ensures forall k :: k in taken ==> k < l
    decreases taken
  {
    l := 0;
    if taken != {} {
      var k :| k in taken;
      var rest := NewLock(taken - {k});
      l := if rest > k then rest else k + 1;
      forall j | j in taken
        ensures j < l
      {
        assert j != k ==> j in taken - {k};
      }
    }
  }

  lemma HasEntryPresents(w: World, t: Tid, i: Iid, token: string)
    requires Ripe(w, t, i, token) && w.held == map[]
    requires w.threads[t] == HasEntry(i, w.conns[i].account, w.conns[i].obtainedAt)
    ensures CanPresent(w, token)
  {
    var m := Move(t, Go, w.clock);
    WantingPresents(Step(w, m), t, i, token);
    PresentsEarlier(w, m, token);
  }

  /** When the row has run out, if not before. */
  function RunsOut(conn: Conn, pair: Pair, clock: real): real {
    if clock - conn.obtainedAt < (pair.expiresIn - REFRESH_MARGIN) as real
    then conn.obtainedAt + (pair.expiresIn - REFRESH_MARGIN) as real else clock
  }

  lemma IdlePresents(w: World, t: Tid, i: Iid, token: string)
    requires t in w.threads && w.threads[t].Idle? && w.held == map[] && token != ""
    requires i in w.conns && PointsTo(w, i, token)
    ensures CanPresent(w, token)
  {
    var m := Move(t, Call(i), RunsOut(w.conns[i], w.tokens[w.conns[i].account], w.clock));
    HasEntryPresents(Step(w, m), t, i, token);
    PresentsEarlier(w, m, token);
  }

  // ------------------------------------------------------------ no way to it

  /** The thread may yet store a connection to the account, or take a token from its row. */
  predicate Refers(th: Thread, a: Account) {
    match th
    case Idle => false
    case Exchanged(_, _, _) => false
    case Reread(_, b, _, entry) => b == a || (entry.Some? && entry.value.account == a)
    case Presenting(_, b, _, conn, _) => b == a || conn.account == a
    case Awaiting(_, b, _, conn, _) => b == a || conn.account == a
    case Saving(_, b, _, conn, _) => b == a || conn.account == a
    case Dating(_, b, _, conn) => b == a || conn.account == a
    case _ => th.account == a
  }

  ghost predicate Unreferred(w: World, a: Account) {
    && (forall i :: i in w.conns ==> w.conns[i].account != a)
    && (forall t: Tid :: t in w.threads ==> !Refers(w.threads[t], a))
  }

  /** No thread has the token, and nothing leads to a row that holds it. */
  ghost predicate Dormant(w: World, token: string) {
    && token in w.issued
    && (forall t: Tid :: t in w.threads ==> Brought(w.threads[t]) != token && !Holding(w.threads[t], token))
    && (forall a :: a in w.tokens && w.tokens[a].refresh == token ==> Unreferred(w, a))
  }

  predicate Holding(th: Thread, token: string) {
    th.Uses() && th.refresh == token
  }

  lemma UnreferredStep(w: World, m: Move, a: Account)
    requires Unreferred(w, a) && Enabled(w, m)
    requires !(m.act.Go? && w.threads[m.tid].Exchanged? && w.threads[m.tid].account == a)
    ensures Unreferred(Step(w, m), a)
  {
    assert !Refers(w.threads[m.tid], a);
  }

  /** The mover neither takes the token nor brings it. */
  lemma DormantMover(w: World, m: Move, token: string)
    requires Dormant(w, token) && Enabled(w, m) && token != ""
    ensures Brought(Moved(w, m)) != token && !Holding(Moved(w, m), token) && Presents(w, m) != Some(token)
  {
    var th := w.threads[m.tid];
    assert th.Reread? ==> Refers(th, th.account);
  }

  lemma DormantStep(w: World, m: Move, token: string)
    requires Dormant(w, token) && Enabled(w, m) && token != ""
    ensures Dormant(Step(w, m), token)
  {
    DormantMover(w, m, token);
    var w' := Step(w, m);
    forall a | a in w'.tokens && w'.tokens[a].refresh == token
      ensures Unreferred(w', a)
    {
      assert a in w.tokens && w.tokens[a].refresh == token;
      UnreferredStep(w, m, a);
    }
  }

  lemma {:induction false} DormantRun(w: World, run: seq<Move>, token: string)
    requires Dormant(w, token) && token != ""
    ensures !EndsPresenting(w, run, token)
    decreases |run|
  {
    if run != [] && Enabled(w, run[0]) {
      DormantMover(w, run[0], token);
      DormantStep(w, run[0], token);
      DormantRun(Step(w, run[0]), run[1..], token);
    }
  }

  /** With every thread idle, an issued token can be presented, again or not, exactly if a connection points at it. */
  lemma PresentedIff(w: World, t: Tid, token: string)
    requires Quiet(w) && t in w.threads && token in w.issued && token != ""
    ensures CanPresent(w, token) <==> Pointed(w, token)
  {
    if Pointed(w, token) {
      var i :| i in w.conns && PointsTo(w, i, token);
      IdlePresents(w, t, i, token);
    } else {
      assert Dormant(w, token);
      forall run
        ensures !EndsPresenting(w, run, token)
      {
        DormantRun(w, run, token);
      }
    }
  }
}
