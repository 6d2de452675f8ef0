/**
Runs of the refresh model, move by move from two idle threads: a row that is missing in the
end, a deletion that a refresh undoes, and a refresh token presented a second time.
*/
module RefreshRuns {
  import opened Options
  import opened SingleFlight
  import opened MissingRows
  import opened LostAnswers

  // ------------------------------------------------------------ from two idle threads

  /** The run deletes rows as the code does: only when no connection points at them. */
  ghost predicate Guarded(w: World, run: seq<Move>)
    requires EnabledRun(w, run)
    decreases |run|
  {
    run == []
    || ((run[0].act.EraseRow? ==> forall i :: i in w.conns ==> w.conns[i].account != run[0].act.account)
        && Guarded(Step(w, run[0]), run[1..]))
  }

  lemma {:induction false} Extend(w: World, run: seq<Move>, m: Move)
    requires EnabledRun(w, run) && Guarded(w, run) && Enabled(Run(w, run), m)
    requires m.act.EraseRow? ==> forall i :: i in Run(w, run).conns ==> Run(w, run).conns[i].account != m.act.account
    ensures EnabledRun(w, run + [m]) && Guarded(w, run + [m]) && Run(w, run + [m]) == Step(Run(w, run), m)
    decreases |run|
  {
    if run == [] {
      assert run + [m] == [m];
      assert [m][1..] == [];
    } else {
      Extend(Step(w, run[0]), run[1..], m);
      assert (run + [m])[1..] == run[1..] + [m];
    }
  }

  const TWO_IDLE := World(map[], map[], map[], map[], map[0 := Idle, 1 := Idle], 0.0, map[], {}, map[])

  /** The run, with every deletion of a row guarded, leads from two idle threads to the world `w`. */
  ghost predicate Leads(run: seq<Move>, w: World) {
    EnabledRun(TWO_IDLE, run) && Guarded(TWO_IDLE, run) && Run(TWO_IDLE, run) == w
  }

  /** One move leads from one world to the next. */
  ghost predicate Leg(w: World, m: Move, w': World) {
    && Enabled(w, m) && Step(w, m) == w'
    && (m.act.EraseRow? ==> forall i :: i in w.conns ==> w.conns[i].account != m.act.account)
  }

  /** The moves lead from each world to the next. */
  ghost predicate Legs(ws: seq<World>, moves: seq<Move>) {
    |ws| == |moves| + 1 && forall k: nat :: k < |moves| ==> Leg(ws[k], moves[k], ws[k + 1])
  }

  lemma {:induction false} Follow(run: seq<Move>, ws: seq<World>, moves: seq<Move>)
    requires Legs(ws, moves) && Leads(run, ws[0])
    ensures Leads(run + moves, ws[|moves|])
    decreases |moves|
  {
    if moves == [] {
      assert run + moves == run;
    } else {
      var n := |moves| - 1;
      Follow(run, ws[..n + 1], moves[..n]);
      assert Leg(ws[n], moves[n], ws[n + 1]);
      Extend(TWO_IDLE, run + moves[..n], moves[n]);
      assert run + moves[..n] + [moves[n]] == run + moves;
    }
  }

  // ------------------------------------------------------------ a missing row

  const NO_REFRESH := Pair("", 0)
  const LINK := Conn("a", 0.0)

  const STORING := TWO_IDLE.(threads := map[0 := Idle, 1 := Exchanged("b", "a", NO_REFRESH)])
  const STORED := TWO_IDLE.(tokens := map["a" := NO_REFRESH], threads := map[0 := Idle, 1 := Connecting("b", "a")])
  const CONNECTED := TWO_IDLE.(conns := map["b" := LINK], tokens := map["a" := NO_REFRESH])
  const STORING_AGAIN := CONNECTED.(threads := map[0 := Exchanged("i", "a", NO_REFRESH), 1 := Idle])
  const STORED_AGAIN := CONNECTED.(threads := map[0 := Connecting("i", "a"), 1 := Idle])
  const DISCONNECTED := STORED_AGAIN.(conns := map[])
  const ERASED := DISCONNECTED.(tokens := map[])
  const ROWLESS := ERASED.(conns := map["i" := LINK], threads := map[0 := Idle, 1 := Idle])

  lemma ConnectLegs()
    ensures Leg(TWO_IDLE, Move(1, Receive("b", "a", NO_REFRESH), 0.0), STORING)
    ensures Leg(STORING, Move(1, Go, 0.0), STORED)
  {
  }

  lemma ConnectedLeg()
    ensures Leg(STORED, Move(1, Go, 0.0), CONNECTED)
  {
  }

  lemma StoreLegs()
    ensures Leg(CONNECTED, Move(0, Receive("i", "a", NO_REFRESH), 0.0), STORING_AGAIN)
    ensures Leg(STORING_AGAIN, Move(0, Go, 0.0), STORED_AGAIN)
  {
  }

  lemma EraseLegs()
    ensures Leg(STORED_AGAIN, Move(1, EraseConn("b"), 0.0), DISCONNECTED)
    ensures Leg(DISCONNECTED, Move(1, EraseRow("a"), 0.0), ERASED)
  {
  }

  lemma RowlessLeg()
    ensures Leg(ERASED, Move(0, Go, 0.0), ROWLESS)
  {
  }

  /**
  One installation connects an account, another stores the account's new pair, the first
  disconnects: nothing points at the row any more, so it goes; then the other stores its
  connection.
  */
  lemma {:induction false} LossReachable() returns (run: seq<Move>)
    ensures Initial(TWO_IDLE) && EnabledRun(TWO_IDLE, run) && Guarded(TWO_IDLE, run) && !Rowed(Run(TWO_IDLE, run))
  {
    ConnectLegs();
    ConnectedLeg();
    StoreLegs();
    EraseLegs();
    RowlessLeg();
    run := [Move(1, Receive("b", "a", NO_REFRESH), 0.0), Move(1, Go, 0.0), Move(1, Go, 0.0),
            Move(0, Receive("i", "a", NO_REFRESH), 0.0), Move(0, Go, 0.0),
            Move(1, EraseConn("b"), 0.0), Move(1, EraseRow("a"), 0.0), Move(0, Go, 0.0)];
    Follow([], [TWO_IDLE, STORING, STORED, CONNECTED, STORING_AGAIN, STORED_AGAIN, DISCONNECTED, ERASED, ROWLESS], run);
    assert [] + run == run;
    assert "i" in ROWLESS.conns && ROWLESS.conns["i"].account !in ROWLESS.tokens;
  }

  // ------------------------------------------------------------ a deletion undone

  const FIRST_PAIR := Pair("r", 0)
  const SECOND_PAIR := Pair("x", 0)

  /** An installation connects an account, whose token has run out at once, and a thread goes on to refresh it. */
  const W1 := TWO_IDLE.(issued := map["r" := "a"], threads := map[0 := Exchanged("i", "a", FIRST_PAIR), 1 := Idle])
  const W2 := W1.(tokens := map["a" := FIRST_PAIR], threads := map[0 := Connecting("i", "a"), 1 := Idle])
  const W3 := W2.(conns := map["i" := LINK], threads := map[0 := Idle, 1 := Idle])
  const W4 := W3.(threads := map[0 := HasEntry("i", "a", 0.0), 1 := Idle])
  const W5 := W3.(threads := map[0 := Wanting("i", "a"), 1 := Idle])
  const W6 := W3.(locks := map["a" := 0], threads := map[0 := Waiting("i", "a", 0), 1 := Idle])
  const W7 := W6.(held := map[0 := 0], threads := map[0 := Inside("i", "a", 0), 1 := Idle])
  const W8 := W7.(threads := map[0 := Reread("i", "a", 0, Some(LINK)), 1 := Idle])

  const UP_TO_READING: seq<Move> :=
    [Move(0, Receive("i", "a", FIRST_PAIR), 0.0), Move(0, Go, 0.0), Move(0, Go, 0.0),
     Move(0, Call("i"), 0.0), Move(0, Go, 0.0), Move(0, FindLock(0), 0.0), Move(0, Go, 0.0), Move(0, Go, 0.0)]

  lemma Leg1()
    ensures Leg(TWO_IDLE, Move(0, Receive("i", "a", FIRST_PAIR), 0.0), W1)
  {
  }

  lemma Leg2()
    ensures Leg(W1, Move(0, Go, 0.0), W2)
  {
  }

  lemma Leg3()
    ensures Leg(W2, Move(0, Go, 0.0), W3)
  {
  }

  lemma Leg4()
    ensures Leg(W3, Move(0, Call("i"), 0.0), W4)
  {
  }

  lemma Leg5()
    ensures Leg(W4, Move(0, Go, 0.0), W5)
  {
  }

  lemma Leg6()
    ensures Leg(W5, Move(0, FindLock(0), 0.0), W6)
  {
  }

  lemma Leg7()
    ensures Leg(W6, Move(0, Go, 0.0), W7)
  {
  }

  lemma Leg8()
    ensures Leg(W7, Move(0, Go, 0.0), W8)
  {
  }

  lemma {:induction false} UpToCall()
    ensures Leads(UP_TO_READING[..4], W4)
  {
    Leg1();
    Leg2();
    Leg3();
    Leg4();
    Follow([], [TWO_IDLE, W1, W2, W3, W4], UP_TO_READING[..4]);
    assert [] + UP_TO_READING[..4] == UP_TO_READING[..4];
  }

  lemma {:induction false} UpToReading()
    ensures Leads(UP_TO_READING, W8)
  {
    UpToCall();
    Leg5();
    Leg6();
    Leg7();
    Leg8();
    Follow(UP_TO_READING[..4], [W4, W5, W6, W7, W8], UP_TO_READING[4..]);
    assert UP_TO_READING[..4] + UP_TO_READING[4..] == UP_TO_READING;
  }

  /** The connection goes, the thread decides, the row goes, the refresh is answered and stored. */
  const U9 := W8.(conns := map[])
  const U10 := U9.(threads := map[0 := Presenting("i", "a", 0, LINK, "r"), 1 := Idle])
  const U11 := U10.(tokens := map[])
  const U12 := U11.(threads := map[0 := Awaiting("i", "a", 0, LINK, "r"), 1 := Idle])
  const U13 := U12.(issued := map["r" := "a", "x" := "a"], redeemed := {"r"},
                    threads := map[0 := Saving("i", "a", 0, LINK, SECOND_PAIR), 1 := Idle])
  const U14 := U13.(tokens := map["a" := SECOND_PAIR], threads := map[0 := Dating("i", "a", 0, LINK), 1 := Idle])

  const DELETED_MEANWHILE: seq<Move> :=
    [Move(1, EraseConn("i"), 0.0), Move(0, Go, 0.0), Move(1, EraseRow("a"), 0.0), Move(0, Go, 0.0),
     Move(0, Answer(Some(SECOND_PAIR)), 0.0), Move(0, Go, 0.0), Move(0, Go, 0.0)]

  lemma Leg9()
    ensures Leg(W8, Move(1, EraseConn("i"), 0.0), U9)
  {
  }

  lemma Leg10()
    ensures Leg(U9, Move(0, Go, 0.0), U10)
  {
  }

  lemma Leg11()
    ensures Leg(U10, Move(1, EraseRow("a"), 0.0), U11)
  {
  }

  lemma Leg12()
    ensures Leg(U11, Move(0, Go, 0.0), U12)
  {
  }

  lemma Leg13()
    ensures Leg(U12, Move(0, Answer(Some(SECOND_PAIR)), 0.0), U13)
  {
  }

  lemma Leg14()
    ensures Leg(U13, Move(0, Go, 0.0), U14)
  {
  }

  /** Both the connection and its row, deleted with every check made, are there again. */
  lemma {:induction false} UndoneReachable()
    ensures Initial(TWO_IDLE) && Enabled(U14, Move(0, Go, 0.0))
    ensures var end := Step(U14, Move(0, Go, 0.0));
            Leads(UP_TO_READING + DELETED_MEANWHILE, end) && "i" in end.conns && "a" in end.tokens
  {
    StoredAfterDeletion();
    LastWrite();
    var before := UP_TO_READING + DELETED_MEANWHILE[..6];
    Extend(TWO_IDLE, before, Move(0, Go, 0.0));
    assert before + [Move(0, Go, 0.0)] == UP_TO_READING + DELETED_MEANWHILE;
  }

  lemma LastWrite()
    ensures Enabled(U14, Move(0, Go, 0.0))
    ensures var end := Step(U14, Move(0, Go, 0.0)); "i" in end.conns && "a" in end.tokens
  {
  }

  lemma {:induction false} StoredAfterDeletion()
    ensures Leads(UP_TO_READING + DELETED_MEANWHILE[..6], U14)
  {
    DeletedBeforeAnswer();
    Leg13();
    Leg14();
    var before := UP_TO_READING + DELETED_MEANWHILE[..4];
    Follow(before, [U12, U13, U14], DELETED_MEANWHILE[4..6]);
    assert before + DELETED_MEANWHILE[4..6] == UP_TO_READING + DELETED_MEANWHILE[..6];
  }

  lemma {:induction false} DecidedAfterDeletion()
    ensures Leads(UP_TO_READING + DELETED_MEANWHILE[..2], U10)
  {
    UpToReading();
    Leg9();
    Leg10();
    Follow(UP_TO_READING, [W8, U9, U10], DELETED_MEANWHILE[..2]);
  }

  lemma {:induction false} DeletedBeforeAnswer()
    ensures Leads(UP_TO_READING + DELETED_MEANWHILE[..4], U12)
  {
    DecidedAfterDeletion();
    Leg11();
    Leg12();
    var before := UP_TO_READING + DELETED_MEANWHILE[..2];
    Follow(before, [U10, U11, U12], DELETED_MEANWHILE[2..4]);
    assert before + DELETED_MEANWHILE[2..4] == UP_TO_READING + DELETED_MEANWHILE[..4];
  }

  // ------------------------------------------------------------ a token presented twice

  /** The token is presented, a failure is reported, and the thread leaves. */
  const P9 := W8.(threads := map[0 := Presenting("i", "a", 0, LINK, "r"), 1 := Idle])
  const P10 := W8.(threads := map[0 := Awaiting("i", "a", 0, LINK, "r"), 1 := Idle])
  const P11 := W8.(threads := map[0 := Leaving("i", "a", 0), 1 := Idle])
  const P12 := W6.(threads := map[0 := Idle, 1 := Idle])

  const FAILING: seq<Move> := [Move(0, Go, 0.0), Move(0, Go, 0.0), Move(0, Answer(None), 0.0), Move(0, Go, 0.0)]

  lemma DecideLeg()
    ensures Leg(W8, Move(0, Go, 0.0), P9) && Presents(P9, Move(0, Go, 0.0)) == Some("r")
  {
  }

  lemma PresentLeg()
    ensures Leg(P9, Move(0, Go, 0.0), P10)
  {
  }

  lemma FailLeg()
    ensures Leg(P10, Move(0, Answer(None), 0.0), P11)
  {
  }

  lemma LeaveLeg()
    ensures Leg(P11, Move(0, Go, 0.0), P12)
  {
  }

  lemma {:induction false} FailsOnce()
    ensures Leads(UP_TO_READING + FAILING[..1], P9) && Leads(UP_TO_READING + FAILING, P12)
  {
    UpToReading();
    DecideLeg();
    PresentLeg();
    FailLeg();
    LeaveLeg();
    Follow(UP_TO_READING, [W8, P9], FAILING[..1]);
    Follow(UP_TO_READING, [W8, P9, P10, P11, P12], FAILING);
  }

  /** Nothing holds the token back: its connection still points at the row. */
  lemma CanPresentAgain()
    ensures CanPresent(P12, "r")
  {
    assert PointsTo(P12, "i", "r");
    PresentedIff(P12, 0, "r");
  }

  lemma {:induction false} WorldsAfter(w: World, a: seq<Move>, b: seq<Move>, k: nat)
    requires EnabledRun(w, a) && EnabledRun(Run(w, a), b) && k < |b|
    ensures EnabledRun(w, a + b) && Worlds(w, a + b)[|a| + k] == Worlds(Run(w, a), b)[k]
    decreases |a|
  {
    if a == [] {
      assert a + b == b;
    } else {
      assert (a + b)[1..] == a[1..] + b;
      WorldsAfter(Step(w, a[0]), a[1..], b, k);
    }
  }

  lemma {:induction false} LastPresents(w: World, run: seq<Move>, token: string)
    requires EndsPresenting(w, run, token)
    ensures EnabledRun(w, run) && Presents(Worlds(w, run)[|run| - 1], run[|run| - 1]) == Some(token)
    decreases |run|
  {
    if |run| == 1 {
      assert run[1..] == [];
    } else {
      LastPresents(Step(w, run[0]), run[1..], token);
    }
  }

  lemma {:induction false} TailEnabled(w: World, a: seq<Move>, b: seq<Move>)
    requires EnabledRun(w, a) && EnabledRun(w, a + b)
    ensures EnabledRun(Run(w, a), b)
    decreases |a|
  {
    if a == [] {
      assert a + b == b;
    } else {
      assert (a + b)[1..] == a[1..] + b;
      TailEnabled(Step(w, a[0]), a[1..], b);
    }
  }

  /** A run from two idle threads in which a token is presented, a failure reported, and the token presented again. */
  lemma {:induction false} TwiceReachable() returns (run: seq<Move>, i: nat, j: nat)
    ensures Initial(TWO_IDLE) && EnabledRun(TWO_IDLE, run) && i < j < |run|
    ensures Presents(Worlds(TWO_IDLE, run)[i], run[i]) == Some("r")
    ensures Presents(Worlds(TWO_IDLE, run)[j], run[j]) == Some("r")
  {
    FailsOnce();
    CanPresentAgain();
    var first := UP_TO_READING + FAILING;
    var rest :| EndsPresenting(P12, rest, "r");
    LastPresents(P12, rest, "r");
    run, i, j := first + rest, 9, |first| + |rest| - 1;
    WorldsAfter(TWO_IDLE, first, rest, |rest| - 1);
    PresentedAtNine(rest);
  }

  lemma {:induction false} PresentedAtNine(rest: seq<Move>)
    requires EnabledRun(TWO_IDLE, UP_TO_READING + FAILING + rest)
    ensures var run := UP_TO_READING + FAILING + rest; Presents(Worlds(TWO_IDLE, run)[9], run[9]) == Some("r")
  {
    var run := UP_TO_READING + FAILING + rest;
    var a := UP_TO_READING + FAILING[..1];
    FailsOnce();
    DecideLeg();
    assert run == a + run[9..];
    TailEnabled(TWO_IDLE, a, run[9..]);
    WorldsAfter(TWO_IDLE, a, run[9..], 0);
  }
}
