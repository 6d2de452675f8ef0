/**
`PgPool` as one thread runs it: the draining loop, the guarded open, the timed wait and
the release paths, with the counter and the queue updated in place.  What pings find, how
the opener fares and what other threads put back during the wait are parameters.
*/
module Pool {
  import opened PoolProtocol

  datatype Result = Connection(c: Conn) | OpenFailed | Exhausted

  /**
  A connection another thread puts back while this one waits.  `before` is by how much the
  others change the counter from this thread's last look to its taking the connection,
  `between` by how much from its writing the connection off, should that be dead, to its
  next look.
  */
  datatype Arrival = Arrival(c: Conn, before: int, between: int)

  /** How a wait ends, and what the counter is by then. */
  datatype Wait = TimedOut(created: int) | Takes(c: Conn, created: int) | Opens(created: int)

  /** A pool of no connections at all is refused. */
  method NewPool(maxSize: int) returns (pool: PgPool?)
    ensures pool == null <==> maxSize < 1
    ensures pool != null ==>
              fresh(pool) && pool.maxSize == maxSize && pool.created == 0 && pool.free == [] && pool.stack == []
  {
    if maxSize < 1 {
      return null;
    }
    pool := new PgPool(maxSize);
  }

  /** How a wait on an empty queue ends; `late` is what the others do to the counter after the last arrival. */
  function Waited(created: int, max: int, arrivals: seq<Arrival>, dead: set<Conn>, late: int): Wait
    decreases |arrivals|
  {
    if arrivals == [] then TimedOut(created + late)
    else
      var a := arrivals[0];
      if a.c !in dead then Takes(a.c, created + a.before)
      else
        var seen := created + a.before - 1 + a.between;
        if seen < max then Opens(seen) else Waited(seen, max, arrivals[1..], dead, late)
  }

  /** The other threads keep the bound during the wait. */
  predicate Within(created: int, max: int, arrivals: seq<Arrival>, dead: set<Conn>, late: int)
    decreases |arrivals|
  {
    if arrivals == [] then created + late <= max
    else
      var a := arrivals[0];
      var seen := created + a.before - 1 + a.between;
      && created + a.before <= max
      && (a.c in dead ==> seen < max || (seen == max && Within(seen, max, arrivals[1..], dead, late)))
  }

  /** By how much the counter moves during a wait that meets only dead connections. */
  function Moved(arrivals: seq<Arrival>, late: int): int {
    if arrivals == [] then late else arrivals[0].before - 1 + arrivals[0].between + Moved(arrivals[1..], late)
  }

  /** The counter at the end of a wait that timed out is what the wait began with, and all that happened since. */
  lemma {:induction false} TimedOutCount(created: int, max: int, arrivals: seq<Arrival>, dead: set<Conn>, late: int)
    requires Waited(created, max, arrivals, dead, late).TimedOut?
    ensures Waited(created, max, arrivals, dead, late).created == created + Moved(arrivals, late)
    decreases |arrivals|
  {
    if arrivals != [] {
      var a := arrivals[0];
      TimedOutCount(created + a.before - 1 + a.between, max, arrivals[1..], dead, late);
    }
  }

  /** The counter at this thread's look after `k` dead arrivals. */
  function Seen(created: int, arrivals: seq<Arrival>, k: nat): int
    requires k <= |arrivals|
    decreases k
  {
    if k == 0 then created
    else Seen(created + arrivals[0].before - 1 + arrivals[0].between, arrivals[1..], k - 1)
  }

  /** The first `k` arrivals were dead, and left no room. */
  ghost predicate InVain(created: int, max: int, arrivals: seq<Arrival>, dead: set<Conn>, k: nat) {
    k <= |arrivals| && forall j: nat :: j < k ==> arrivals[j].c in dead && Seen(created, arrivals, j + 1) >= max
  }

  /**
  A wait ends with the first arrival that is alive, which is taken, or that is dead and
  leaves room, for which a connection is opened; it times out if there is no such arrival.
  */
  lemma {:induction false} WaitedMeans(created: int, max: int, arrivals: seq<Arrival>, dead: set<Conn>, late: int)
    returns (k: nat)
    ensures InVain(created, max, arrivals, dead, k)
    ensures match Waited(created, max, arrivals, dead, late)
            case TimedOut(m) => k == |arrivals| && m == Seen(created, arrivals, k) + late
            case Takes(c, m) => k < |arrivals| && c == arrivals[k].c && c !in dead
                                && m == Seen(created, arrivals, k) + arrivals[k].before
            case Opens(m) => k < |arrivals| && arrivals[k].c in dead && m == Seen(created, arrivals, k + 1) < max
    decreases |arrivals|
  {
    k := 0;
    if arrivals != [] && arrivals[0].c in dead {
      var seen := created + arrivals[0].before - 1 + arrivals[0].between;
      assert Seen(created, arrivals, 1) == seen;
      if seen >= max {
        var k' := WaitedMeans(seen, max, arrivals[1..], dead, late);
        k := k' + 1;
        forall j: nat | j < k
          ensures arrivals[j].c in dead && Seen(created, arrivals, j + 1) >= max
        {
          if j > 0 {
            assert arrivals[j] == arrivals[1..][j - 1];
          }
        }
      }
    }
  }

  class PgPool {
    const maxSize: int
    var created: int
    var free: seq<Conn>
    /** The connections of this thread's open `with` blocks, innermost last. */
    var stack: seq<Conn>

    constructor (maxSize: int)
      requires maxSize >= 1
      ensures this.maxSize == maxSize && created == 0 && free == [] && stack == []
    {
      this.maxSize, created, free, stack := maxSize, 0, [], [];
    }

    /**
    `made` is what the opener yields when `openOk`; `arrivals` are the connections other
    threads put back while this one waits, before its time is up.
    */
    method Acquire(dead: set<Conn>, openOk: bool, made: Conn, arrivals: seq<Arrival>, late: int) returns (r: Result)
      modifies this`created, this`free
      ensures var left := old(created) - |old(free)|;
              (old(created) <= maxSize && (left >= maxSize ==> Within(left, maxSize, arrivals, dead, late)))
              ==> created <= maxSize
      ensures var n := |old(free)|; var k := DeadAhead(old(free), dead);
              if k < n then
                r == Connection(old(free)[k]) && free == old(free)[k + 1..] && created == old(created) - k
              else if old(created) - n < maxSize then
                && free == [] && created == old(created) - n + (if openOk then 1 else 0)
                && r == if openOk then Connection(made) else OpenFailed
              else
                && free == []
                && match Waited(old(created) - n, maxSize, arrivals, dead, late)
                   case TimedOut(m) => r == Exhausted && created == m
                   case Takes(c, m) => r == Connection(c) && created == m
                   case Opens(m) => created == m + (if openOk then 1 else 0)
                                    && r == if openOk then Connection(made) else OpenFailed
    {
      ghost var k := 0;
      while free != []
        invariant Drained(old(free), free, dead, k) && created == old(created) - k
        decreases |free|
      {
        var conn := free[0];
        free := free[1..];
        if conn !in dead {
          DrainedStops(old(free), dead, k);
          return Connection(conn);
        }
        created := created - 1;
        k := k + 1;
      }
      DrainedStops(old(free), dead, k);
      if created < maxSize {
        if !openOk {
          return OpenFailed;
        }
        created := created + 1;
        return Connection(made);
      }
      var waiting := arrivals;
      while true
        invariant free == []
        invariant Within(old(created) - |old(free)|, maxSize, arrivals, dead, late)
              ==> Within(created, maxSize, waiting, dead, late)
        invariant Waited(created, maxSize, waiting, dead, late)
               == Waited(old(created) - |old(free)|, maxSize, arrivals, dead, late)
        decreases |waiting|
      {
        if waiting == [] {
          created := created + late; // by other threads
          return Exhausted;
        }
        var a := waiting[0];
        waiting := waiting[1..];
        created := created + a.before; // by other threads
        if a.c !in dead {
          return Connection(a.c);
        }
        created := created - 1;
        created := created + a.between; // by other threads
        if created < maxSize {
          if !openOk {
            return OpenFailed;
          }
          created := created + 1;
          return Connection(made);
        }
      }
    }

    /** `closed` is the connection's own flag; `rollbackOk` tells whether rolling back works. */
    method Release(c: Conn, closed: bool, rollbackOk: bool)
      modifies this`created, this`free
      ensures if !closed && rollbackOk then free == old(free) + [c] && created == old(created)
              else free == old(free) && created == old(created) - 1
    {
      if closed {
        created := created - 1;
        return;
      }
      if rollbackOk {
        free := free + [c];
      } else {
        created := created - 1;
      }
    }

    /**
    A failed `acquire` raises before anything is pushed.  Exhaustion is reported with the
    counter off its maximum by exactly what happened to it since the wait began.
    */
    method Enter(dead: set<Conn>, openOk: bool, made: Conn, arrivals: seq<Arrival>, late: int) returns (r: Result)
      modifies this
      ensures var left := old(created) - |old(free)|;
              (old(created) <= maxSize && (left >= maxSize ==> Within(left, maxSize, arrivals, dead, late)))
              ==> created <= maxSize
      ensures stack == if r.Connection? then old(stack) + [r.c] else old(stack)
      ensures r == Exhausted
         <==> && (forall c :: c in old(free) ==> c in dead) && old(created) - |old(free)| >= maxSize
              && Waited(old(created) - |old(free)|, maxSize, arrivals, dead, late).TimedOut?
      ensures r == Exhausted ==> created == old(created) - |old(free)| + Moved(arrivals, late)
    {
      var n := |free|;
      if Waited(created - n, maxSize, arrivals, dead, late).TimedOut? {
        TimedOutCount(created - n, maxSize, arrivals, dead, late);
      }
      r := Acquire(dead, openOk, made, arrivals, late);
      if r.Connection? {
        stack := stack + [r.c];
      }
    }

    method Exit(closed: bool, rollbackOk: bool)
      modifies this
      ensures old(stack) == [] ==> unchanged(this)
      ensures old(stack) != [] ==>
              var top := old(stack)[|old(stack)| - 1];
              && stack == old(stack)[..|old(stack)| - 1]
              && (if !closed && rollbackOk then free == old(free) + [top] && created == old(created)
                  else free == old(free) && created == old(created) - 1)
    {
      if stack != [] {
        var conn := stack[|stack| - 1];
        stack := stack[..|stack| - 1];
        Release(conn, closed, rollbackOk);
      }
    }

    /** Drops every queued connection without lowering the counter. */
    method Close()
      modifies this`free
      ensures free == []
    {
      while free != []
        decreases |free|
      {
        free := free[1..];
      }
    }

    /**
    A closed pool never gets its places back: if the queue held all it could, the next
    `acquire` on the empty queue reports exhaustion although nobody holds a connection.
    */
    method AcquireAfterClose(dead: set<Conn>, openOk: bool, made: Conn) returns (r: Result)
      requires created == |free| <= maxSize
      modifies this`created, this`free
      ensures r == Exhausted <==> |old(free)| == maxSize
    {
      Close();
      r := Acquire(dead, openOk, made, [], 0);
    }
  }

  /** `rest` is what remains of `all` after its first `k` connections were found dead. */
  ghost predicate Drained(all: seq<Conn>, rest: seq<Conn>, dead: set<Conn>, k: int) {
    0 <= k <= |all| && rest == all[k..] && forall j :: 0 <= j < k ==> all[j] in dead
  }

  /** A draining that stops at a live connection, or at the end, has skipped exactly the dead ones ahead. */
  lemma {:induction false} DrainedStops(all: seq<Conn>, dead: set<Conn>, k: int)
    requires 0 <= k <= |all| && Drained(all, all[k..], dead, k) && (k < |all| ==> all[k] !in dead)
    ensures DeadAhead(all, dead) == k
  {
    if k > 0 {
      assert all[1..][k - 1..] == all[k..];
      DrainedStops(all[1..], dead, k - 1);
    }
  }
}
