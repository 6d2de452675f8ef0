/**
The limiter that guards anonymous and login requests.  It keeps, per key, only the calls
it allowed within the last window, and is shown to decide as if it kept them all.
*/
module RateLimiter {
  type Hits = map<string, seq<real>>

  function Since(times: seq<real>, cutoff: real): (r: seq<real>)
    ensures |r| <= |times|
    ensures forall t :: t in r <==> t in times && t > cutoff
  {
    if times == [] then []
    else (if times[0] > cutoff then [times[0]] else []) + Since(times[1..], cutoff)
  }

  function Kept(hits: Hits, key: string): seq<real> {
    if key in hits then hits[key] else []
  }

  /** Limit and window length of one limiter. */
  datatype Policy = Policy(limit: nat, window: real)

  /** A call with the key at the time. */
  datatype Call = Call(key: string, now: real)

  function Next(p: Policy, hits: Hits, c: Call): Hits {
    var recent := Since(Kept(hits, c.key), c.now - p.window);
    hits[c.key := if |recent| >= p.limit then recent else recent + [c.now]]
  }

  predicate Allows(p: Policy, hits: Hits, c: Call) {
    |Since(Kept(hits, c.key), c.now - p.window)| < p.limit
  }

  /** The table before call `j` of a run. */
  function At(p: Policy, run: seq<Call>, j: nat): Hits
    requires j <= |run|
  {
    if j == 0 then map[] else Next(p, At(p, run, j - 1), run[j - 1])
  }

  predicate Allowed(p: Policy, run: seq<Call>, j: nat)
    requires j < |run|
  {
    Allows(p, At(p, run, j), run[j])
  }

  /** All times at which calls with the key were allowed before call `j`. */
  function Times(p: Policy, run: seq<Call>, j: nat, key: string): seq<real>
    requires j <= |run|
  {
    if j == 0 then [] else Times(p, run, j - 1, key) + Gain(p, At(p, run, j - 1), run[j - 1], key)
  }

  function Gain(p: Policy, hits: Hits, c: Call, key: string): seq<real> {
    if c.key == key && Allows(p, hits, c) then [c.now] else []
  }

  ghost predicate Ordered(run: seq<Call>) {
    forall i: nat, j: nat :: i <= j < |run| ==> run[i].now <= run[j].now
  }

  /** The calls with the key that were allowed, before call `j`, after the time `start`. */
  function AllowedSince(p: Policy, run: seq<Call>, j: nat, key: string, start: real): set<nat>
    requires j <= |run|
  {
    set i: nat | i < j && run[i].key == key && Allowed(p, run, i) && run[i].now > start
  }

  lemma {:induction false} SinceConcat(a: seq<real>, b: seq<real>, cutoff: real)
    ensures Since(a + b, cutoff) == Since(a, cutoff) + Since(b, cutoff)
  {
    if a == [] {
      assert a + b == b;
    } else {
      assert (a + b)[1..] == a[1..] + b;
      SinceConcat(a[1..], b, cutoff);
    }
  }

  lemma {:induction false} SinceTwice(a: seq<real>, earlier: real, cutoff: real)
    requires earlier <= cutoff
    ensures Since(Since(a, earlier), cutoff) == Since(a, cutoff)
  {
    if a != [] {
      SinceTwice(a[1..], earlier, cutoff);
      SinceConcat(if a[0] > earlier then [a[0]] else [], Since(a[1..], earlier), cutoff);
    }
  }

  lemma KeptStep(p: Policy, hits: Hits, c: Call, key: string, cutoff: real)
    requires c.now - p.window <= cutoff
    ensures Since(Kept(Next(p, hits, c), key), cutoff)
         == Since(Kept(hits, key), cutoff) + Since(Gain(p, hits, c, key), cutoff)
  {
    if c.key == key {
      var recent := Since(Kept(hits, key), c.now - p.window);
      SinceTwice(Kept(hits, key), c.now - p.window, cutoff);
      SinceConcat(recent, Gain(p, hits, c, key), cutoff);
      assert Kept(Next(p, hits, c), key) == recent + Gain(p, hits, c, key);
    }
  }

  /** What the table has forgotten no later call would have counted. */
  lemma {:induction false} KeepsEnough(p: Policy, run: seq<Call>, j: nat, key: string, cutoff: real)
    requires Ordered(run) && j <= |run| && (j > 0 ==> run[j - 1].now - p.window <= cutoff)
    ensures Since(Kept(At(p, run, j), key), cutoff) == Since(Times(p, run, j, key), cutoff)
  {
    if j > 0 {
      KeepsEnough(p, run, j - 1, key, cutoff);
      var h := At(p, run, j - 1);
      KeptStep(p, h, run[j - 1], key, cutoff);
      SinceConcat(Times(p, run, j - 1, key), Gain(p, h, run[j - 1], key), cutoff);
    }
  }

  lemma {:induction false} AllowedSinceStep(p: Policy, run: seq<Call>, j: nat, key: string, start: real)
    requires 0 < j <= |run|
    ensures AllowedSince(p, run, j, key, start)
         == AllowedSince(p, run, j - 1, key, start)
            + if run[j - 1].key == key && Allowed(p, run, j - 1) && run[j - 1].now > start then {j - 1} else {}
    ensures |AllowedSince(p, run, j, key, start)|
         == |AllowedSince(p, run, j - 1, key, start)|
            + if run[j - 1].key == key && Allowed(p, run, j - 1) && run[j - 1].now > start then 1 else 0
  {
    assert j - 1 !in AllowedSince(p, run, j - 1, key, start);
  }

  /** Allowed calls are counted by their times. */
  lemma {:induction false} CountByTimes(p: Policy, run: seq<Call>, j: nat, key: string, start: real)
    requires j <= |run|
    ensures |AllowedSince(p, run, j, key, start)| == |Since(Times(p, run, j, key), start)|
  {
    if j > 0 {
      CountByTimes(p, run, j - 1, key, start);
      CountStep(p, run, j, key, start);
    }
  }

  lemma {:induction false} CountStep(p: Policy, run: seq<Call>, j: nat, key: string, start: real)
    requires 0 < j <= |run|
    ensures |AllowedSince(p, run, j, key, start)| - |AllowedSince(p, run, j - 1, key, start)|
         == |Since(Times(p, run, j, key), start)| - |Since(Times(p, run, j - 1, key), start)|
  {
    AllowedSinceStep(p, run, j, key, start);
    TimesStep(p, run, j, key, start);
  }

  lemma {:induction false} TimesStep(p: Policy, run: seq<Call>, j: nat, key: string, start: real)
    requires 0 < j <= |run|
    ensures |Since(Times(p, run, j, key), start)|
         == |Since(Times(p, run, j - 1, key), start)|
            + if run[j - 1].key == key && Allowed(p, run, j - 1) && run[j - 1].now > start then 1 else 0
  {
    SinceConcat(Times(p, run, j - 1, key), Gain(p, At(p, run, j - 1), run[j - 1], key), start);
  }

  /** A call is allowed exactly when fewer than the limit were allowed in the window that ends with it. */
  lemma {:induction false} AllowedIff(p: Policy, run: seq<Call>, j: nat)
    requires Ordered(run) && j < |run|
    ensures Allowed(p, run, j) <==> |AllowedSince(p, run, j, run[j].key, run[j].now - p.window)| < p.limit
  {
    KeepsEnough(p, run, j, run[j].key, run[j].now - p.window);
    CountByTimes(p, run, j, run[j].key, run[j].now - p.window);
  }

  lemma {:induction false} AmongAllowed(p: Policy, run: seq<Call>, j: nat, key: string, start: real, i: nat)
    requires i < j <= |run| && run[i].key == key && Allowed(p, run, i) && run[i].now > start
    ensures i in AllowedSince(p, run, j, key, start)
  {
  }

  lemma {:induction false} AllowedByCount(p: Policy, run: seq<Call>, j: nat, key: string, start: real, n: nat)
    requires Ordered(run) && j < |run| && run[j].key == key && run[j].now - p.window == start
    requires |AllowedSince(p, run, j, key, start)| == n
    ensures Allowed(p, run, j) <==> n < p.limit
  {
    AllowedIff(p, run, j);
  }

  lemma SubsetSize<T>(a: set<T>, b: set<T>)
    requires a <= b
    ensures |a| <= |b|
  {
    assert b == a + (b - a);
  }

  lemma {:induction false} Last(calls: set<nat>) returns (m: nat)
    requires calls != {}
    ensures m in calls && forall i :: i in calls ==> i <= m
    decreases |calls|
  {
    m :| m in calls;
    if calls != {m} {
      var rest := calls - {m};
      assert rest + {m} == calls;
      var n := Last(rest);
      m := if n > m then n else m;
    }
  }

  /**
  No more calls of a key are allowed than the limit among any that lie less than a window
  apart: in particular in every half-open stretch of time one window long.
  */
  lemma {:induction false} CloseCalls(p: Policy, run: seq<Call>, calls: set<nat>, key: string)
    requires Ordered(run)
    requires forall i :: i in calls ==> i < |run| && run[i].key == key && Allowed(p, run, i)
    requires forall i, j :: i in calls && j in calls ==> run[j].now - run[i].now < p.window
    ensures |calls| <= p.limit
  {
    if calls != {} {
      var m := Last(calls);
      AllowedIff(p, run, m);
      var before := AllowedSince(p, run, m, key, run[m].now - p.window);
      assert calls - {m} <= before;
      SubsetSize(calls - {m}, before);
    }
  }

  class FixedWindowRateLimiter {
    const policy: Policy
    var hits: Hits

    constructor (limit: nat, window: real)
      ensures policy == Policy(limit, window) && hits == map[]
    {
      policy, hits := Policy(limit, window), map[];
    }

    method Allow(key: string, now: real) returns (ok: bool)
      modifies this
      ensures ok <==> Allows(policy, old(hits), Call(key, now))
      ensures hits == Next(policy, old(hits), Call(key, now))
    {
      var kept := if key in hits then hits[key] else [];
      var recent := Since(kept, now - policy.window);
      if |recent| >= policy.limit {
        hits := hits[key := recent];
        return false;
      }
      recent := recent + [now];
      hits := hits[key := recent];
      return true;
    }
  }
}
