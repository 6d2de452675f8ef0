/**
Login attempts pass two limiters, per address and per user name, before any password is
looked at.  Whatever addresses they come from, no more than five attempts for one name
reach the password check within ten minutes.
*/
module Login {
  import opened Options
  import opened RateLimiter

  const PER_ADDRESS := Policy(10, 600.0)
  const PER_NAME := Policy(5, 600.0)

  /** `name` is the user name sent, without surrounding blanks, if it is a string at all. */
  datatype Attempt = Attempt(address: string, name: Option<string>, password: Option<string>, now: real)

  predicate NameChar(c: char) {
    'A' <= c <= 'Z' || 'a' <= c <= 'z' || '0' <= c <= '9' || c in "._-"
  }

  predicate ValidName(name: string) {
    3 <= |name| <= 32 && forall c :: c in name ==> NameChar(c)
  }

  /** Attempts without a name share one. */
  function NameKey(a: Attempt): string {
    match a.name
    case None => "?"
    case Some(name) => name
  }

  function NameCall(a: Attempt): Call {
    Call(NameKey(a), a.now)
  }

  function AddressCall(a: Attempt): Call {
    Call(a.address, a.now)
  }

  /** The two limiters' tables. */
  datatype State = State(addresses: Hits, names: Hits)

  function Step(s: State, a: Attempt): State {
    State(Next(PER_ADDRESS, s.addresses, AddressCall(a)),
          if Allows(PER_ADDRESS, s.addresses, AddressCall(a)) then Next(PER_NAME, s.names, NameCall(a)) else s.names)
  }

  /** The attempt gets as far as the password check. */
  predicate Checks(s: State, a: Attempt) {
    && Allows(PER_ADDRESS, s.addresses, AddressCall(a)) && Allows(PER_NAME, s.names, NameCall(a))
    && a.name.Some? && ValidName(a.name.value) && a.password.Some?
  }

  /** The state before attempt `j`. */
  function Before(run: seq<Attempt>, j: nat): State
    requires j <= |run|
  {
    if j == 0 then State(map[], map[]) else Step(Before(run, j - 1), run[j - 1])
  }

  /** Attempt `i` of the run gets as far as the password check. */
  predicate Checked(run: seq<Attempt>, i: nat) {
    i < |run| && Checks(Before(run, i), run[i])
  }

  /** The limiter by address lets attempt `i` through. */
  predicate ByAddress(run: seq<Attempt>, i: nat) {
    i < |run| && Allows(PER_ADDRESS, Before(run, i).addresses, AddressCall(run[i]))
  }

  /** So does the limiter by name. */
  predicate ByName(run: seq<Attempt>, i: nat) {
    ByAddress(run, i) && Allows(PER_NAME, Before(run, i).names, NameCall(run[i]))
  }

  /** The calls the limiter by name sees of the first `j` attempts. */
  function NameCalls(run: seq<Attempt>, j: nat): seq<Call>
    requires j <= |run|
  {
    if j == 0 then [] else NameCalls(run, j - 1) + Passed(Before(run, j - 1), run[j - 1])
  }

  /** The call by name, if the limiter by address lets the attempt through. */
  function Passed(s: State, a: Attempt): seq<Call> {
    if Allows(PER_ADDRESS, s.addresses, AddressCall(a)) then [NameCall(a)] else []
  }

  lemma {:induction false} AtPrefix(p: Policy, a: seq<Call>, b: seq<Call>, j: nat)
    requires j <= |a|
    ensures At(p, a + b, j) == At(p, a, j)
  {
    if j > 0 {
      AtPrefix(p, a, b, j - 1);
    }
  }

  lemma {:induction false} AtNext(p: Policy, calls: seq<Call>, c: Call)
    ensures At(p, calls + [c], |calls| + 1) == Next(p, At(p, calls, |calls|), c)
  {
    AtPrefix(p, calls, [c], |calls|);
  }

  lemma {:induction false} NamesStep(s: State, a: Attempt, calls: seq<Call>)
    requires s.names == At(PER_NAME, calls, |calls|)
    ensures var calls' := calls + Passed(s, a); Step(s, a).names == At(PER_NAME, calls', |calls'|)
  {
    if Allows(PER_ADDRESS, s.addresses, AddressCall(a)) {
      AtNext(PER_NAME, calls, NameCall(a));
    } else {
      assert calls + Passed(s, a) == calls;
    }
  }

  lemma {:induction false} NamesTable(run: seq<Attempt>, j: nat)
    requires j <= |run|
    ensures Before(run, j).names == At(PER_NAME, NameCalls(run, j), |NameCalls(run, j)|)
  {
    if j > 0 {
      NamesTable(run, j - 1);
      NamesStep(Before(run, j - 1), run[j - 1], NameCalls(run, j - 1));
    }
  }

  lemma {:induction false} NameCallsGrow(run: seq<Attempt>, i: nat, j: nat)
    requires i <= j <= |run|
    ensures NameCalls(run, i) <= NameCalls(run, j)
  {
    if i < j {
      NameCallsGrow(run, i, j - 1);
    }
  }

  ghost predicate InOrder(run: seq<Attempt>) {
    forall i: nat, j: nat :: i <= j < |run| ==> run[i].now <= run[j].now
  }

  /** The calls are in order, and none is later than `end`. */
  ghost predicate OrderedUntil(calls: seq<Call>, end: real) {
    Ordered(calls) && forall k: nat :: k < |calls| ==> calls[k].now <= end
  }

  lemma {:induction false} OrderedMore(calls: seq<Call>, s: State, a: Attempt, end: real)
    requires OrderedUntil(calls, end) && end <= a.now
    ensures OrderedUntil(calls + Passed(s, a), a.now)
  {
  }

  lemma {:induction false} NameCallsOrdered(run: seq<Attempt>, j: nat)
    requires InOrder(run) && 0 < j <= |run|
    ensures OrderedUntil(NameCalls(run, j), run[j - 1].now)
  {
    if j == 1 {
      OrderedMore([], Before(run, 0), run[0], run[0].now);
    } else {
      NameCallsOrdered(run, j - 1);
      OrderedMore(NameCalls(run, j - 1), Before(run, j - 1), run[j - 1], run[j - 2].now);
    }
  }

  lemma {:induction false} AllowedWithin(p: Policy, calls: seq<Call>, before: seq<Call>, c: Call)
    requires before + [c] <= calls
    ensures Allowed(p, calls, |before|) <==> Allows(p, At(p, before, |before|), c)
  {
    assert calls == before + calls[|before|..];
    AtPrefix(p, before, calls[|before|..], |before|);
  }

  /** An attempt let through by address is a call by name, at its own place; there it is allowed exactly if by name. */
  lemma {:induction false} PassedCall(run: seq<Attempt>, i: nat, n: nat)
    requires i < n <= |run| && ByAddress(run, i)
    ensures var calls, before := NameCalls(run, n), NameCalls(run, i);
            && NameCalls(run, i + 1) == before + [NameCall(run[i])] && before + [NameCall(run[i])] <= calls
            && (Allowed(PER_NAME, calls, |before|) <==> ByName(run, i))
  {
    NameCallsGrow(run, i + 1, n);
    NamesTable(run, i);
    AllowedWithin(PER_NAME, NameCalls(run, n), NameCalls(run, i), NameCall(run[i]));
  }

  /** Every call by name is some attempt's. */
  lemma {:induction false} NameCallFrom(run: seq<Attempt>, n: nat, k: nat) returns (i: nat)
    requires n <= |run| && k < |NameCalls(run, n)|
    ensures i < n && ByAddress(run, i) && |NameCalls(run, i)| == k
  {
    if k < |NameCalls(run, n - 1)| {
      i := NameCallFrom(run, n - 1, k);
    } else {
      i := n - 1;
    }
  }

  lemma {:induction false} PlacesDiffer(run: seq<Attempt>, i: nat, m: nat)
    requires i < m < |run| && ByAddress(run, i)
    ensures |NameCalls(run, i)| < |NameCalls(run, m)|
  {
    PassedCall(run, i, |run|);
    NameCallsGrow(run, i + 1, m);
  }

  lemma {:induction false} InjectiveSize<K, V>(m: map<K, V>)
    requires forall a, b :: a in m && b in m && m[a] == m[b] ==> a == b
    ensures |m.Values| == |m.Keys|
    decreases |m.Keys|
  {
    if m != map[] {
      var k :| k in m;
      var rest := m - {k};
      assert m.Keys == rest.Keys + {k};
      assert m.Values == rest.Values + {m[k]};
      InjectiveSize(rest);
    } else {
      assert m.Values == {} && m.Keys == {};
    }
  }

  /** The places of attempts among the calls by name. */
  function Places(run: seq<Attempt>, attempts: set<nat>): map<nat, nat>
    requires forall i :: i in attempts ==> i < |run|
  {
    map i | i in attempts :: |NameCalls(run, i)|
  }

  lemma {:induction false} PlacesCount(run: seq<Attempt>, attempts: set<nat>)
    requires forall i :: i in attempts ==> i < |run| && ByAddress(run, i)
    ensures |Places(run, attempts).Values| == |attempts|
  {
    var m := Places(run, attempts);
    forall a, b | a in m && b in m && m[a] == m[b]
      ensures a == b
    {
      if a < b {
        PlacesDiffer(run, a, b);
      } else if b < a {
        PlacesDiffer(run, b, a);
      }
    }
    InjectiveSize(m);
    assert m.Keys == attempts;
  }

  /** Less than ten minutes apart, at most five attempts for a name have their password checked. */
  lemma {:induction false} PasswordChecks(run: seq<Attempt>, attempts: set<nat>, name: string)
    requires InOrder(run)
    requires forall i :: i in attempts ==> i < |run| && Checked(run, i) && run[i].name == Some(name)
    requires forall i, j :: i in attempts && j in attempts ==> run[j].now - run[i].now < 600.0
    ensures |attempts| <= 5
  {
    var calls := NameCalls(run, |run|);
    if run != [] {
      NameCallsOrdered(run, |run|);
    }
    forall i | i in attempts
      ensures var k := |NameCalls(run, i)|;
              k < |calls| && calls[k] == NameCall(run[i]) && Allowed(PER_NAME, calls, k)
    {
      PassedCall(run, i, |run|);
    }
    PlacesCount(run, attempts);
    CloseCalls(PER_NAME, calls, Places(run, attempts).Values, name);
  }

  // ------------------------------------------------------------ who gets through

  /** Attempt `j` is from the same address as `i`, let through by address, and at most ten minutes older. */
  predicate CountsFrom(run: seq<Attempt>, i: nat, j: nat)
    requires j < i < |run|
  {
    run[j].address == run[i].address && ByAddress(run, j) && run[j].now > run[i].now - 600.0
  }

  ghost function RecentFrom(run: seq<Attempt>, i: nat): set<nat>
    requires i < |run|
  {
    set j: nat | j < i && CountsFrom(run, i, j)
  }

  /** Attempt `j` is for the same name as `i`, let through by name, and at most ten minutes older. */
  predicate CountsFor(run: seq<Attempt>, i: nat, j: nat)
    requires j < i < |run|
  {
    NameKey(run[j]) == NameKey(run[i]) && ByName(run, j) && run[j].now > run[i].now - 600.0
  }

  ghost function RecentFor(run: seq<Attempt>, i: nat): set<nat>
    requires i < |run|
  {
    set j: nat | j < i && CountsFor(run, i, j)
  }

  function AddressCalls(run: seq<Attempt>): seq<Call> {
    seq(|run|, i requires 0 <= i < |run| => AddressCall(run[i]))
  }

  lemma {:induction false} AtStep(p: Policy, calls: seq<Call>, j: nat)
    requires 0 < j <= |calls|
    ensures At(p, calls, j) == Next(p, At(p, calls, j - 1), calls[j - 1])
  {
  }

  lemma {:induction false} AddressTable(run: seq<Attempt>, j: nat)
    requires j <= |run|
    ensures Before(run, j).addresses == At(PER_ADDRESS, AddressCalls(run), j)
  {
    if j > 0 {
      AddressTable(run, j - 1);
      AtStep(PER_ADDRESS, AddressCalls(run), j);
      BeforeStep(run, j);
    }
  }

  lemma {:induction false} BeforeStep(run: seq<Attempt>, j: nat)
    requires 0 < j <= |run|
    ensures Before(run, j).addresses == Next(PER_ADDRESS, Before(run, j - 1).addresses, AddressCall(run[j - 1]))
  {
  }

  lemma {:induction false} AddressAllowed(run: seq<Attempt>, j: nat)
    requires j < |run|
    ensures Allowed(PER_ADDRESS, AddressCalls(run), j) <==> ByAddress(run, j)
  {
    AddressTable(run, j);
  }

  lemma {:induction false} AddressWindow(run: seq<Attempt>, i: nat)
    requires i < |run|
    ensures AllowedSince(PER_ADDRESS, AddressCalls(run), i, run[i].address, run[i].now - 600.0) == RecentFrom(run, i)
  {
    forall j: nat | j < i
      ensures Allowed(PER_ADDRESS, AddressCalls(run), j) <==> ByAddress(run, j)
    {
      AddressAllowed(run, j);
    }
  }

  /** An address gets through exactly with fewer than ten attempts let through in the last ten minutes. */
  lemma {:induction false} AddressLimit(run: seq<Attempt>, i: nat)
    requires InOrder(run) && i < |run|
    ensures ByAddress(run, i) <==> |RecentFrom(run, i)| < 10
  {
    AddressAllowed(run, i);
    AddressWindow(run, i);
    AllowedByCount(PER_ADDRESS, AddressCalls(run), i, run[i].address, run[i].now - 600.0, |RecentFrom(run, i)|);
  }

  /** The earlier calls by name that count against attempt `i`. */
  function Counted(run: seq<Attempt>, i: nat): set<nat>
    requires i < |run| && |NameCalls(run, i)| <= |NameCalls(run, i + 1)|
  {
    AllowedSince(PER_NAME, NameCalls(run, i + 1), |NameCalls(run, i)|, NameKey(run[i]), run[i].now - 600.0)
  }

  lemma {:induction false} CallAt(calls: seq<Call>, before: seq<Call>, c: Call)
    requires before + [c] <= calls
    ensures |before| < |calls| && calls[|before|] == c
  {
    assert (before + [c])[|before|] == c;
  }

  lemma {:induction false} CallOf(run: seq<Attempt>, j: nat, n: nat)
    requires j < n <= |run| && ByAddress(run, j)
    ensures |NameCalls(run, j)| < |NameCalls(run, n)| && NameCalls(run, n)[|NameCalls(run, j)|] == NameCall(run[j])
  {
    PassedCall(run, j, n);
    CallAt(NameCalls(run, n), NameCalls(run, j), NameCall(run[j]));
  }

  lemma {:induction false} AllowedAt(run: seq<Attempt>, j: nat, n: nat)
    requires j < n <= |run| && ByName(run, j)
    ensures |NameCalls(run, j)| < |NameCalls(run, n)| && Allowed(PER_NAME, NameCalls(run, n), |NameCalls(run, j)|)
  {
    PassedCall(run, j, n);
  }

  lemma {:induction false} CallCounts(run: seq<Attempt>, j: nat, n: nat, k: nat, start: real)
    requires j < n <= |run| && ByName(run, j) && run[j].now > start
    requires |NameCalls(run, j)| < k <= |NameCalls(run, n)|
    ensures |NameCalls(run, j)| in AllowedSince(PER_NAME, NameCalls(run, n), k, NameKey(run[j]), start)
  {
    CallOf(run, j, n);
    AllowedAt(run, j, n);
    AmongAllowed(PER_NAME, NameCalls(run, n), k, NameKey(run[j]), start, |NameCalls(run, j)|);
  }

  lemma {:induction false} NameCounted(run: seq<Attempt>, i: nat, j: nat)
    requires j < i < |run| && |NameCalls(run, i)| <= |NameCalls(run, i + 1)| && CountsFor(run, i, j)
    ensures |NameCalls(run, j)| in Counted(run, i)
  {
    CallOf(run, j, i);
    CallCounts(run, j, i + 1, |NameCalls(run, i)|, run[i].now - 600.0);
  }

  lemma {:induction false} NameCounts(run: seq<Attempt>, i: nat, m: nat) returns (j: nat)
    requires i < |run| && |NameCalls(run, i)| <= |NameCalls(run, i + 1)| && m in Counted(run, i)
    ensures j < i && CountsFor(run, i, j) && |NameCalls(run, j)| == m
  {
    j := NameCallFrom(run, i, m);
    PassedCall(run, j, i + 1);
  }

  /** They are its earlier attempts for the name. */
  lemma {:induction false} NameWindow(run: seq<Attempt>, i: nat)
    requires i < |run| && |NameCalls(run, i)| <= |NameCalls(run, i + 1)|
    ensures Counted(run, i) == Places(run, RecentFor(run, i)).Values
  {
    var places := Places(run, RecentFor(run, i));
    forall j | j in places
      ensures places[j] in Counted(run, i)
    {
      NameCounted(run, i, j);
    }
    forall m | m in Counted(run, i)
      ensures m in places.Values
    {
      var j := NameCounts(run, i, m);
      assert j in places && places[j] == m;
    }
  }

  lemma {:induction false} NameCount(run: seq<Attempt>, i: nat)
    requires i < |run| && |NameCalls(run, i)| <= |NameCalls(run, i + 1)|
    ensures |Counted(run, i)| == |RecentFor(run, i)|
  {
    NameWindow(run, i);
    PlacesCount(run, RecentFor(run, i));
  }

  /** Once through by address, a name gets through exactly with fewer than five let through in the last ten minutes. */
  lemma {:induction false} NameLimit(run: seq<Attempt>, i: nat)
    requires InOrder(run) && i < |run| && ByAddress(run, i)
    ensures ByName(run, i) <==> |RecentFor(run, i)| < 5
  {
    var calls, k := NameCalls(run, i + 1), |NameCalls(run, i)|;
    PassedCall(run, i, i + 1);
    NameCallsOrdered(run, i + 1);
    NameCount(run, i);
    AllowedByCount(PER_NAME, calls, k, NameKey(run[i]), run[i].now - 600.0, |RecentFor(run, i)|);
  }

  /**
  An attempt reaches the password check exactly if its address has had fewer than ten and
  its name fewer than five let through in the last ten minutes, the name is three to
  thirty-two letters, digits, dots, dashes or underscores, and a password is given.
  */
  lemma {:induction false} CheckedExactly(run: seq<Attempt>, i: nat)
    requires InOrder(run) && i < |run|
    ensures Checked(run, i)
       <==> && |RecentFrom(run, i)| < 10 && |RecentFor(run, i)| < 5 && run[i].password.Some?
            && run[i].name.Some? && 3 <= |run[i].name.value| <= 32
            && forall c :: c in run[i].name.value ==>
                 'A' <= c <= 'Z' || 'a' <= c <= 'z' || '0' <= c <= '9' || c == '.' || c == '-' || c == '_'
  {
    AddressLimit(run, i);
    if ByAddress(run, i) {
      NameLimit(run, i);
    }
  }

  class LoginGate {
    const addresses: FixedWindowRateLimiter
    const names: FixedWindowRateLimiter

    ghost predicate Valid() {
      addresses != names && addresses.policy == PER_ADDRESS && names.policy == PER_NAME
    }

    function Counters(): State
      reads addresses, names
    {
      State(addresses.hits, names.hits)
    }

    constructor ()
      ensures Valid() && fresh(addresses) && fresh(names) && Counters() == State(map[], map[])
    {
      addresses := new FixedWindowRateLimiter(PER_ADDRESS.limit, PER_ADDRESS.window);
      names := new FixedWindowRateLimiter(PER_NAME.limit, PER_NAME.window);
    }

    /** The first refusal ends the attempt: a call refused by address is not counted by name. */
    method Admit(a: Attempt) returns (checks: bool)
      requires Valid()
      modifies addresses, names
      ensures Counters() == Step(old(Counters()), a)
      ensures checks <==> Checks(old(Counters()), a)
    {
      checks := addresses.Allow(a.address, a.now);
      if !checks {
        return;
      }
      checks := names.Allow(a.name.GetOr("?"), a.now);
      if checks && (a.name == None || !ValidName(a.name.value) || a.password == None) {
        return false;
      }
    }
  }
}
