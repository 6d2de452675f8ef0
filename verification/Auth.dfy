/**
Sessions over time: signed requests with one-use nonces, rotating installation sessions,
sliding user sessions, and the purge.  Installation and user sessions share one table.

The step functions follow the services; the class at the end performs them in place.  The
theorems are about whole runs in which anybody does anything at any time, the clock never
going back and random tokens and ids being new.
*/
module Auth {
  import opened Options
  import opened Tables

  const SESSION_TTL := 1800.0
  const NONCE_WINDOW := 600.0
  const CLOCK_SKEW := 300.0
  const USER_TTL := 1296000.0
  const USER_MAX_TTL := 2592000.0

  /** A session as stored: an installation's has `iid`, a user's has `user`, an adopted installation's both. */
  datatype Payload = Payload(iid: Option<Iid>, user: Option<Uid>, loginAt: Option<real>, issuedAt: real,
                             expiresAt: real, revoked: bool)

  type Sessions = map<string, Payload>

  datatype State = State(installs: map<Iid, bool>, adopted: map<Iid, Uid>, sessions: Sessions,
                         nonces: map<string, real>, users: set<Uid>)

  /** `genuine`: the signature is the one the installation's secret gives. */
  datatype Signed = Signed(iid: Iid, timestamp: int, nonce: string, genuine: bool)

  datatype Op =
    | Bootstrap(iid: Iid)
    | Create(sig: Signed, token: string)
    | Refresh(sig: Signed, prior: string, token: string)
    | Validate(token: string)
    | RevokeSession(token: string)
    | RevokeInstallation(sig: Signed)
    | SignUp(user: Uid)
    | Login(user: Uid, token: string)
    | Adopt(user: Uid, iid: Iid)
    | ValidateUser(token: string)
    | Logout(token: string)
    | EraseInstallation(iid: Iid)
    | EraseUser(user: Uid)
    | Purge

  // ------------------------------------------------------------ signed requests

  function Gap(now: real, timestamp: int): real {
    if now >= timestamp as real then now - timestamp as real else timestamp as real - now
  }

  /** The request is recent and from a live installation: its nonce is looked at. */
  predicate Recent(s: State, sig: Signed, now: real) {
    Gap(now, sig.timestamp) <= CLOCK_SKEW + NONCE_WINDOW && sig.iid in s.installs && !s.installs[sig.iid]
  }

  predicate NonceFree(s: State, nonce: string, now: real) {
    |nonce| >= 16 && (nonce in s.nonces ==> s.nonces[nonce] <= now)
  }

  /** The nonce of a signed request is taken, even if the signature turns out wrong. */
  predicate UsesNonce(s: State, sig: Signed, now: real) {
    Recent(s, sig, now) && NonceFree(s, sig.nonce, now)
  }

  predicate SignatureOk(s: State, sig: Signed, now: real) {
    UsesNonce(s, sig, now) && sig.genuine
  }

  function NoncesAfter(s: State, sig: Signed, now: real): map<string, real> {
    if UsesNonce(s, sig, now) then
      (map n | n in s.nonces && s.nonces[n] > now :: s.nonces[n])[sig.nonce := now + NONCE_WINDOW]
    else s.nonces
  }

  // ------------------------------------------------------------ sessions

  /** A bearer of an installation's session is accepted. */
  predicate Accepts(s: State, token: string, now: real) {
    && token != "" && token in s.sessions && !s.sessions[token].revoked
    && s.sessions[token].iid.Some? && s.sessions[token].iid.value in s.installs
    && !s.installs[s.sessions[token].iid.value]
    && now < s.sessions[token].expiresAt
  }

  predicate Refreshes(s: State, sig: Signed, prior: string, now: real) {
    SignatureOk(s, sig, now) && Accepts(s, prior, now) && s.sessions[prior].iid == Some(sig.iid)
  }

  function Origin(p: Payload): real {
    p.loginAt.GetOr(p.issuedAt)
  }

  function Min(a: real, b: real): real {
    if a < b then a else b
  }

  /** A user's session is in time, and is renewed; this precedes the look-up of the user. */
  predicate Renews(s: State, token: string, now: real) {
    && token != "" && token in s.sessions && s.sessions[token].user.GetOr("") != "" && !s.sessions[token].revoked
    && now < Origin(s.sessions[token]) + USER_MAX_TTL && now < s.sessions[token].expiresAt
  }

  predicate AcceptsUser(s: State, token: string, now: real) {
    Renews(s, token, now) && s.sessions[token].user.value in s.users
  }

  function Renewed(p: Payload, now: real): Payload {
    var until := Min(now + USER_TTL, Origin(p) + USER_MAX_TTL);
    if until == p.expiresAt then p else p.(expiresAt := until, issuedAt := now)
  }

  function Issued(iid: Iid, now: real): Payload {
    Payload(Some(iid), None, None, now, now + SESSION_TTL, false)
  }

  function LoggedIn(user: Uid, now: real): Payload {
    Payload(None, Some(user), Some(now), now, now + USER_TTL, false)
  }

  /** A session saved as an installation's record, which has no place for the user's fields. */
  function AsRecord(p: Payload): Payload {
    p.(user := None, loginAt := None)
  }

  function Revoked(p: Payload): Payload {
    AsRecord(p).(revoked := true)
  }

  /** Rows that a purge removes, and that nothing accepts any more. */
  predicate Dead(p: Payload, now: real) {
    p.expiresAt <= now || p.revoked
  }

  function OwnedBy(s: State, user: Uid): set<Iid> {
    set i | i in s.adopted && i in s.installs && s.adopted[i] == user
  }

  predicate Erased(s: State, p: Payload, user: Uid) {
    p.user == Some(user) || (p.iid.Some? && p.iid.value in OwnedBy(s, user))
  }

  function SessionsAfter(s: State, op: Op, now: real): Sessions {
    var t := s.sessions;
    match op
    case Create(sig, token) => if SignatureOk(s, sig, now) then t[token := Issued(sig.iid, now)] else t
    case Refresh(sig, prior, token) =>
      if Refreshes(s, sig, prior, now) then t[prior := Revoked(t[prior])][token := Issued(sig.iid, now)] else t
    case RevokeSession(token) =>
      if token != "" && token in t && t[token].iid.Some? then t[token := Revoked(t[token])] else t
    case Login(user, token) => if user in s.users then t[token := LoggedIn(user, now)] else t
    case Adopt(user, iid) =>
      if iid in s.installs then map k | k in t :: if t[k].iid == Some(iid) then t[k].(user := Some(user)) else t[k]
      else t
    case ValidateUser(token) => if Renews(s, token, now) then t[token := Renewed(t[token], now)] else t
    case Logout(token) =>
      if token != "" && token in t && t[token].user.GetOr("") != "" then t[token := t[token].(revoked := true)] else t
    case EraseInstallation(iid) => map k | k in t && t[k].iid != Some(iid) :: t[k]
    case EraseUser(user) => map k | k in t && !Erased(s, t[k], user) :: t[k]
    case Purge => map k | k in t && !Dead(t[k], now) :: t[k]
    case _ => t
  }

  function InstallsAfter(s: State, op: Op, now: real): map<Iid, bool> {
    match op
    case Bootstrap(iid) => s.installs[iid := false]
    case RevokeInstallation(sig) => if SignatureOk(s, sig, now) then s.installs[sig.iid := true] else s.installs
    case EraseInstallation(iid) => s.installs - {iid}
    case EraseUser(user) => s.installs - OwnedBy(s, user)
    case _ => s.installs
  }

  function AdoptedAfter(s: State, op: Op): map<Iid, Uid> {
    match op
    case Adopt(user, iid) => if iid in s.installs then s.adopted[iid := user] else s.adopted
    case EraseInstallation(iid) => s.adopted - {iid}
    case EraseUser(user) => s.adopted - OwnedBy(s, user)
    case _ => s.adopted
  }

  /** The signature an operation carries. */
  function SignedBy(op: Op): Option<Signed> {
    match op
    case Create(sig, _) => Some(sig)
    case Refresh(sig, _, _) => Some(sig)
    case RevokeInstallation(sig) => Some(sig)
    case _ => None
  }

  function Step(s: State, op: Op, now: real): State {
    State(InstallsAfter(s, op, now), AdoptedAfter(s, op), SessionsAfter(s, op, now),
          if SignedBy(op).Some? then NoncesAfter(s, SignedBy(op).value, now) else s.nonces,
          match op case SignUp(user) => s.users + {user} case EraseUser(user) => s.users - {user} case _ => s.users)
  }

  /** Whether the operation is granted; what does not need granting counts as granted. */
  predicate Granted(s: State, op: Op, now: real) {
    match op
    case Create(sig, _) => SignatureOk(s, sig, now)
    case Refresh(sig, prior, _) => Refreshes(s, sig, prior, now)
    case RevokeInstallation(sig) => SignatureOk(s, sig, now)
    case Validate(token) => Accepts(s, token, now)
    case ValidateUser(token) => AcceptsUser(s, token, now)
    case Login(user, _) => user in s.users
    case _ => true
  }

  // ------------------------------------------------------------ runs

  type Timed = (real, Op)

  /** Tokens and installation ids that have been given out. */
  datatype Used = Used(tokens: set<string>, iids: set<Iid>)

  /** The token an operation gives out if it is granted. */
  function TokenOf(op: Op): Option<string> {
    match op
    case Create(_, token) => Some(token)
    case Refresh(_, _, token) => Some(token)
    case Login(_, token) => Some(token)
    case _ => None
  }

  function UsedAfter(used: Used, op: Op): Used {
    Used(if TokenOf(op).Some? then used.tokens + {TokenOf(op).value} else used.tokens,
         if op.Bootstrap? then used.iids + {op.iid} else used.iids)
  }

  predicate NewNames(op: Op, used: Used) {
    && (TokenOf(op).Some? ==> TokenOf(op).value != "" && TokenOf(op).value !in used.tokens)
    && (op.Bootstrap? ==> op.iid !in used.iids)
    && (op.SignUp? ==> op.user != "")
  }

  const EMPTY := State(map[], map[], map[], map[], {})

  /** The state before operation `j` of a run. */
  function At(run: seq<Timed>, j: nat): State
    requires j <= |run|
  {
    if j == 0 then EMPTY else Step(At(run, j - 1), run[j - 1].1, run[j - 1].0)
  }

  function UsedAt(run: seq<Timed>, j: nat): Used
    requires j <= |run|
  {
    if j == 0 then Used({}, {}) else UsedAfter(UsedAt(run, j - 1), run[j - 1].1)
  }

  function ClockAt(run: seq<Timed>, j: nat): real
    requires 0 < j <= |run|
  {
    run[j - 1].0
  }

  /** The clock never goes back. */
  ghost predicate Ordered(run: seq<Timed>) {
    forall i: nat, j: nat :: i <= j < |run| ==> run[i].0 <= run[j].0
  }

  /** Nor is anything drawn at random that was drawn before. */
  ghost predicate Fair(run: seq<Timed>) {
    Ordered(run) && forall j: nat :: j < |run| ==> NewAt(run, j)
  }

  predicate NewAt(run: seq<Timed>, j: nat)
    requires j < |run|
  {
    NewNames(run[j].1, UsedAt(run, j))
  }

  lemma {:induction false} NamesUsed(run: seq<Timed>, j: nat)
    requires j <= |run|
    ensures At(run, j).sessions.Keys <= UsedAt(run, j).tokens && At(run, j).installs.Keys <= UsedAt(run, j).iids
  {
    if j > 0 {
      NamesUsed(run, j - 1);
    }
  }

  // ------------------------------------------------------------ nonces

  /** Operation `i` takes the nonce. */
  predicate Uses(run: seq<Timed>, i: nat, nonce: string)
    requires i < |run|
  {
    var sig := SignedBy(run[i].1);
    sig.Some? && sig.value.nonce == nonce && UsesNonce(At(run, i), sig.value, run[i].0)
  }

  /** The table keeps the nonce at least until then. */
  predicate Remembers(nonces: map<string, real>, nonce: string, until: real) {
    nonce in nonces && nonces[nonce] >= until
  }

  /** A nonce is recorded when used; others only go when they have expired. */
  lemma NonceStep(s: State, op: Op, now: real, nonce: string)
    ensures var s' := Step(s, op, now);
            if SignedBy(op).Some? && SignedBy(op).value.nonce == nonce && UsesNonce(s, SignedBy(op).value, now)
            then nonce in s'.nonces && s'.nonces[nonce] == now + NONCE_WINDOW
            else && (nonce in s'.nonces ==> nonce in s.nonces && s'.nonces[nonce] == s.nonces[nonce])
                 && (nonce in s.nonces && s.nonces[nonce] > now ==> nonce in s'.nonces)
  {
  }

  lemma RememberedLonger(s: State, op: Op, now: real, nonce: string, until: real)
    requires Remembers(s.nonces, nonce, until) && now < until
    ensures Remembers(Step(s, op, now).nonces, nonce, until)
  {
    NonceStep(s, op, now, nonce);
  }

  /** A use of a nonce is remembered for as long as it counts. */
  lemma {:induction false} UseRemembered(run: seq<Timed>, i: nat, j: nat, nonce: string)
    requires Ordered(run) && i < j <= |run| && Uses(run, i, nonce) && run[i].0 + NONCE_WINDOW > ClockAt(run, j)
    ensures Remembers(At(run, j).nonces, nonce, run[i].0 + NONCE_WINDOW)
  {
    if i < j - 1 {
      UseRemembered(run, i, j - 1, nonce);
      RememberedLonger(At(run, j - 1), run[j - 1].1, run[j - 1].0, nonce, run[i].0 + NONCE_WINDOW);
    } else {
      UsedNow(run, i, nonce);
    }
  }

  lemma {:induction false} UsedNow(run: seq<Timed>, i: nat, nonce: string)
    requires i < |run| && Uses(run, i, nonce)
    ensures Remembers(At(run, i + 1).nonces, nonce, run[i].0 + NONCE_WINDOW)
  {
    NonceStep(At(run, i), run[i].1, run[i].0, nonce);
  }

  /** What is remembered was a use. */
  lemma {:induction false} RememberedWasUsed(run: seq<Timed>, j: nat, nonce: string) returns (i: nat)
    requires Ordered(run) && j <= |run| && nonce in At(run, j).nonces
    ensures i < j && Uses(run, i, nonce) && At(run, j).nonces[nonce] == run[i].0 + NONCE_WINDOW
  {
    NonceStep(At(run, j - 1), run[j - 1].1, run[j - 1].0, nonce);
    if Uses(run, j - 1, nonce) {
      i := j - 1;
    } else {
      i := RememberedWasUsed(run, j - 1, nonce);
    }
  }

  /** A nonce is accepted exactly when its last use, by anybody, is ten minutes past. */
  lemma {:induction false} NonceAccepted(run: seq<Timed>, j: nat, nonce: string)
    requires Ordered(run) && j < |run|
    ensures NonceFree(At(run, j), nonce, run[j].0)
       <==> |nonce| >= 16 && forall i: nat :: i < j && Uses(run, i, nonce) ==> run[i].0 + 600.0 <= run[j].0
  {
    if nonce in At(run, j).nonces {
      var i := RememberedWasUsed(run, j, nonce);
    }
    forall i: nat | i < j && Uses(run, i, nonce) && run[i].0 + NONCE_WINDOW > run[j].0
      ensures nonce in At(run, j).nonces && At(run, j).nonces[nonce] > run[j].0
    {
      UseRemembered(run, i, j, nonce);
    }
  }

  /**
  The timestamp window outlasts the nonce.  While its installation lives, a signed message
  that was accepted is accepted again exactly if every use of its nonce, by anybody, is ten
  minutes past and its timestamp is at most fifteen minutes old.
  */
  lemma {:induction false} AcceptedAgain(run: seq<Timed>, i: nat, j: nat, sig: Signed)
    requires Ordered(run) && i < j < |run| && SignedBy(run[i].1) == Some(sig)
    requires SignatureOk(At(run, i), sig, run[i].0)
    requires sig.iid in At(run, j).installs && !At(run, j).installs[sig.iid]
    ensures SignatureOk(At(run, j), sig, run[j].0)
       <==> && run[j].0 <= sig.timestamp as real + CLOCK_SKEW + NONCE_WINDOW
            && forall k: nat :: k < j && Uses(run, k, sig.nonce) ==> run[k].0 + NONCE_WINDOW <= run[j].0
  {
    NonceAccepted(run, j, sig.nonce);
    assert run[i].0 <= run[j].0;
  }

  /** A message signed at time zero, and sent at once and ten minutes later. */
  const SIGNED := Signed("i", 0, "0123456789abcdef", true)

  const SENT_TWICE: seq<Timed> :=
    [(0.0, Bootstrap("i")), (0.0, Create(SIGNED, "t")), (600.0, Create(SIGNED, "u"))]

  lemma AcceptedTwice()
    ensures Fair(SENT_TWICE)
    ensures SignatureOk(At(SENT_TWICE, 1), SIGNED, 0.0) && SignatureOk(At(SENT_TWICE, 2), SIGNED, 600.0)
  {
    var run := SENT_TWICE;
    assert UsedAt(run, 1) == Used({}, {"i"});
    assert UsedAt(run, 2) == Used({"t"}, {"i"});
    assert NewAt(run, 0) && NewAt(run, 1) && NewAt(run, 2);
    var s1 := At(run, 1);
    assert At(run, 0) == EMPTY && run[0] == (0.0, Bootstrap("i"));
    assert s1 == Step(EMPTY, Bootstrap("i"), 0.0);
    assert s1.installs == map["i" := false] && s1.nonces == map[];
    var s2 := At(run, 2);
    assert s2 == Step(s1, Create(SIGNED, "t"), 0.0);
    assert s2.nonces[SIGNED.nonce] == 600.0;
  }

  /** So a message accepted more than five minutes after its timestamp is never accepted again. */
  lemma {:induction false} AcceptedOnce(run: seq<Timed>, i: nat, j: nat)
    requires Ordered(run) && i < j < |run| && SignedBy(run[i].1).Some? && SignedBy(run[j].1) == SignedBy(run[i].1)
    requires SignatureOk(At(run, i), SignedBy(run[i].1).value, run[i].0)
    requires run[i].0 > SignedBy(run[i].1).value.timestamp as real + CLOCK_SKEW
    ensures !SignatureOk(At(run, j), SignedBy(run[j].1).value, run[j].0)
  {
    var sig := SignedBy(run[i].1).value;
    NonceAccepted(run, j, sig.nonce);
    assert Uses(run, i, sig.nonce);
  }

  /**
  In every run a signed request is accepted exactly if the signature is genuine, the
  installation lives, the timestamp is within fifteen minutes either way, and the nonce is
  long enough and was last used ten minutes ago or more.
  */
  lemma {:induction false} SignedAccepted(run: seq<Timed>, j: nat, sig: Signed)
    requires Ordered(run) && j < |run|
    ensures var s, now, stamp := At(run, j), run[j].0, sig.timestamp as real;
            SignatureOk(s, sig, now)
            <==> && sig.genuine && sig.iid in s.installs && !s.installs[sig.iid]
                 && stamp - 900.0 <= now <= stamp + 900.0 && |sig.nonce| >= 16
                 && forall i: nat :: i < j && Uses(run, i, sig.nonce) ==> run[i].0 + 600.0 <= now
  {
    NonceAccepted(run, j, sig.nonce);
  }

  // ------------------------------------------------------------ how long an installation's session lasts

  /** Operation `k` renews the session as a user's. */
  predicate RenewsAt(run: seq<Timed>, k: nat, token: string)
    requires k < |run|
  {
    run[k].1 == ValidateUser(token) && Renews(At(run, k), token, run[k].0)
  }

  /** Only a renewal as a user's session moves the expiry of a session that is not issued anew. */
  lemma ExpiryStep(s: State, op: Op, now: real, token: string)
    requires TokenOf(op) != Some(token) && !(op == ValidateUser(token) && Renews(s, token, now))
    ensures var t := Step(s, op, now).sessions;
            token in t ==> token in s.sessions && t[token].expiresAt == s.sessions[token].expiresAt
  {
  }

  lemma {:induction false} ExpiresAsIssued(run: seq<Timed>, i: nat, j: nat, token: string)
    requires Fair(run) && i < j <= |run| && TokenOf(run[i].1) == Some(token) && !run[i].1.Login?
    requires forall k: nat :: i < k < j ==> !RenewsAt(run, k, token)
    ensures token in UsedAt(run, j).tokens
    ensures token in At(run, j).sessions ==> At(run, j).sessions[token].expiresAt <= run[i].0 + SESSION_TTL
  {
    assert NewAt(run, i) && NewAt(run, j - 1);
    if i == j - 1 {
      NamesUsed(run, i);
    } else {
      ExpiresAsIssued(run, i, j - 1, token);
      assert !RenewsAt(run, j - 1, token);
      ExpiryStep(At(run, j - 1), run[j - 1].1, run[j - 1].0, token);
    }
  }

  /** Operation `k` adopts the session's installation. */
  predicate AdoptsAt(run: seq<Timed>, k: nat, token: string)
    requires k < |run|
  {
    var s, op := At(run, k), run[k].1;
    op.Adopt? && token in s.sessions && s.sessions[token].iid == Some(op.iid)
  }

  /** An installation's session is marked with a user only by an adoption. */
  lemma {:induction false} MarkedByAdoption(run: seq<Timed>, i: nat, j: nat, token: string)
    requires Fair(run) && i < j <= |run| && TokenOf(run[i].1) == Some(token) && !run[i].1.Login?
    requires token in At(run, j).sessions && At(run, j).sessions[token].user.Some?
    ensures exists k: nat :: i < k < j && AdoptsAt(run, k, token)
  {
    assert NewAt(run, i) && NewAt(run, j - 1);
    NamesUsed(run, i);
    if i < j - 1 && !AdoptsAt(run, j - 1, token) {
      StaysUsed(run, i, j - 1, token);
      MarkStep(At(run, j - 1), run[j - 1].1, run[j - 1].0, token);
      MarkedByAdoption(run, i, j - 1, token);
    }
  }

  lemma MarkStep(s: State, op: Op, now: real, token: string)
    requires TokenOf(op) != Some(token) && token in Step(s, op, now).sessions
    requires op.Adopt? ==> token in s.sessions && s.sessions[token].iid != Some(op.iid)
    ensures token in s.sessions && (Step(s, op, now).sessions[token].user.Some? ==> s.sessions[token].user.Some?)
  {
  }

  lemma {:induction false} StaysUsed(run: seq<Timed>, i: nat, j: nat, token: string)
    requires i < j <= |run| && TokenOf(run[i].1) == Some(token)
    ensures token in UsedAt(run, j).tokens
  {
    if i < j - 1 {
      StaysUsed(run, i, j - 1, token);
    }
  }

  /**
  An installation's session is accepted within half an hour of its issue and no longer,
  unless the installation was adopted and then the session renewed as its user's.
  */
  lemma {:induction false} InstallationSessionEnds(run: seq<Timed>, i: nat, j: nat, token: string, now: real)
    requires Fair(run) && i < j <= |run| && TokenOf(run[i].1) == Some(token) && !run[i].1.Login?
    requires Accepts(At(run, j), token, now)
    ensures now < run[i].0 + SESSION_TTL
         || exists a: nat, k: nat :: i < a < k < j && AdoptsAt(run, a, token) && RenewsAt(run, k, token)
  {
    if k: nat :| i < k < j && RenewsAt(run, k, token) {
      MarkedByAdoption(run, i, k, token);
    } else {
      ExpiresAsIssued(run, i, j, token);
    }
  }

  // ------------------------------------------------------------ rotation

  /** A step never revives a session: rows are new, or keep their installation and their revocation. */
  lemma NoRevival(s: State, op: Op, now: real, token: string)
    requires TokenOf(op) != Some(token)
    ensures var s' := Step(s, op, now);
            token in s'.sessions ==> token in s.sessions && s'.sessions[token].iid == s.sessions[token].iid
                                     && (s.sessions[token].revoked ==> s'.sessions[token].revoked)
  {
  }

  /** The token of the session request that a chain of refreshes goes back to. */
  function RootAt(run: seq<Timed>, j: nat): map<string, string>
    requires j <= |run|
  {
    if j == 0 then map[] else RootsAfter(At(run, j - 1), RootAt(run, j - 1), run[j - 1].1, run[j - 1].0)
  }

  function RootsAfter(s: State, m: map<string, string>, op: Op, now: real): map<string, string> {
    match op
    case Create(sig, token) => if SignatureOk(s, sig, now) then m[token := token] else m
    case Refresh(sig, prior, token) =>
      if Refreshes(s, sig, prior, now) && prior in m then m[token := m[prior]] else m
    case _ => m
  }

  /** Of each chain at most one session is not revoked. */
  ghost predicate Rotated(s: State, roots: map<string, string>, used: Used) {
    && roots.Keys <= used.tokens && roots.Values <= used.tokens
    && (forall k :: k in s.sessions && s.sessions[k].iid.Some? ==> k in roots)
    && (forall a, b ::
          a in s.sessions && b in s.sessions && a in roots && b in roots && a != b && roots[a] == roots[b] ==>
          s.sessions[a].revoked || s.sessions[b].revoked)
  }

  lemma {:induction false} RotatedAt(run: seq<Timed>, j: nat)
    requires Fair(run) && j <= |run|
    ensures Rotated(At(run, j), RootAt(run, j), UsedAt(run, j))
  {
    if j > 0 {
      RotatedAt(run, j - 1);
      RotateNext(run, j - 1);
    }
  }

  lemma {:induction false} RotateNext(run: seq<Timed>, j: nat)
    requires j < |run| && NewAt(run, j) && Rotated(At(run, j), RootAt(run, j), UsedAt(run, j))
    ensures Rotated(At(run, j + 1), RootAt(run, j + 1), UsedAt(run, j + 1))
  {
    NamesUsed(run, j);
    RotateStep(At(run, j), RootAt(run, j), UsedAt(run, j), run[j].1, run[j].0);
  }

  lemma RotateStep(s: State, m: map<string, string>, used: Used, op: Op, now: real)
    requires Rotated(s, m, used) && NewNames(op, used) && s.sessions.Keys <= used.tokens
    ensures Rotated(Step(s, op, now), RootsAfter(s, m, op, now), UsedAfter(used, op))
  {
    match op
    case Create(_, _) => CreateRotates(s, m, used, op, now);
    case Refresh(_, _, _) => RefreshRotates(s, m, used, op, now);
    case _ => OthersRotate(s, m, used, op, now);
  }

  lemma CreateRotates(s: State, m: map<string, string>, used: Used, op: Op, now: real)
    requires op.Create? && Rotated(s, m, used) && NewNames(op, used) && s.sessions.Keys <= used.tokens
    ensures Rotated(Step(s, op, now), RootsAfter(s, m, op, now), UsedAfter(used, op))
  {
  }

  lemma RefreshRotates(s: State, m: map<string, string>, used: Used, op: Op, now: real)
    requires op.Refresh? && Rotated(s, m, used) && NewNames(op, used) && s.sessions.Keys <= used.tokens
    ensures Rotated(Step(s, op, now), RootsAfter(s, m, op, now), UsedAfter(used, op))
  {
  }

  lemma OthersRotate(s: State, m: map<string, string>, used: Used, op: Op, now: real)
    requires !op.Create? && !op.Refresh? && Rotated(s, m, used) && NewNames(op, used) && s.sessions.Keys <= used.tokens
    ensures Rotated(Step(s, op, now), m, UsedAfter(used, op))
  {
    var s' := Step(s, op, now);
    forall k | k in s'.sessions && TokenOf(op) != Some(k)
      ensures k in s.sessions && s'.sessions[k].iid == s.sessions[k].iid
              && (s.sessions[k].revoked ==> s'.sessions[k].revoked)
    {
      NoRevival(s, op, now, k);
    }
  }

  /** However often a session is rotated, one token of the chain at most is accepted. */
  lemma {:induction false} OneLivePerChain(run: seq<Timed>, j: nat, a: string, b: string, now: real)
    requires Fair(run) && j <= |run| && a in RootAt(run, j) && b in RootAt(run, j)
             && RootAt(run, j)[a] == RootAt(run, j)[b]
    requires Accepts(At(run, j), a, now) && Accepts(At(run, j), b, now)
    ensures a == b
  {
    RotatedAt(run, j);
  }

  // ------------------------------------------------------------ what is over stays over

  /** The token has been given out, and its session is revoked or gone. */
  predicate Over(s: State, used: Used, token: string) {
    token in used.tokens && (token in s.sessions ==> s.sessions[token].revoked)
  }

  lemma {:induction false} OverStays(run: seq<Timed>, i: nat, j: nat, token: string)
    requires Fair(run) && i <= j <= |run| && Over(At(run, i), UsedAt(run, i), token)
    ensures Over(At(run, j), UsedAt(run, j), token)
  {
    if i < j {
      OverStays(run, i, j - 1, token);
      assert NewAt(run, j - 1);
      NoRevival(At(run, j - 1), run[j - 1].1, run[j - 1].0, token);
    }
  }

  /** A session once revoked or deleted is never accepted again, whatever happens. */
  lemma {:induction false} OverForGood(run: seq<Timed>, i: nat, j: nat, token: string, now: real)
    requires Fair(run) && i <= j <= |run| && Over(At(run, i), UsedAt(run, i), token)
    ensures !Accepts(At(run, j), token, now) && !AcceptsUser(At(run, j), token, now)
  {
    OverStays(run, i, j, token);
  }

  /** A granted refresh ends the session it was asked for, for good. */
  lemma {:induction false} RotatedAway(run: seq<Timed>, i: nat, j: nat, now: real)
    requires Fair(run) && i < j <= |run| && run[i].1.Refresh? && Granted(At(run, i), run[i].1, run[i].0)
    ensures !Accepts(At(run, j), run[i].1.prior, now)
  {
    NamesUsed(run, i);
    assert NewAt(run, i);
    OverForGood(run, i + 1, j, run[i].1.prior, now);
  }

  /** A revocation ends the session it names, for good. */
  lemma {:induction false} RevokedForGood(run: seq<Timed>, i: nat, j: nat, now: real)
    requires Fair(run) && i < j <= |run| && run[i].1.RevokeSession?
    requires var t, token := At(run, i).sessions, run[i].1.token; token != "" && token in t && t[token].iid.Some?
    ensures Over(At(run, i + 1), UsedAt(run, i + 1), run[i].1.token)
    ensures !Accepts(At(run, j), run[i].1.token, now) && !AcceptsUser(At(run, j), run[i].1.token, now)
  {
    NamesUsed(run, i);
    OverForGood(run, i + 1, j, run[i].1.token, now);
  }

  /** So does signing out, for a session that is a user's. */
  lemma {:induction false} LoggedOutForGood(run: seq<Timed>, i: nat, j: nat, now: real)
    requires Fair(run) && i < j <= |run| && run[i].1.Logout?
    requires var t, token := At(run, i).sessions, run[i].1.token;
             token != "" && token in t && t[token].user.Some? && t[token].user.value != ""
    ensures Over(At(run, i + 1), UsedAt(run, i + 1), run[i].1.token)
    ensures !Accepts(At(run, j), run[i].1.token, now) && !AcceptsUser(At(run, j), run[i].1.token, now)
  {
    NamesUsed(run, i);
    OverForGood(run, i + 1, j, run[i].1.token, now);
  }

  /** The session is of the installation that is erased, or of the user who is, or of an installation of that user. */
  predicate GoesWith(s: State, op: Op, p: Payload) {
    || (op.EraseInstallation? && p.iid == Some(op.iid))
    || (op.EraseUser? && p.user == Some(op.user))
    || (op.EraseUser? && p.iid.Some? && p.iid.value in s.installs && p.iid.value in s.adopted
        && s.adopted[p.iid.value] == op.user)
  }

  /** An erasure removes exactly those sessions, for good. */
  lemma {:induction false} ErasedForGood(run: seq<Timed>, i: nat, j: nat, token: string, now: real)
    requires Fair(run) && i < j <= |run| && (run[i].1.EraseInstallation? || run[i].1.EraseUser?)
    requires token in At(run, i).sessions
    ensures var s, t := At(run, i), At(run, i + 1).sessions;
            && (token !in t <==> GoesWith(s, run[i].1, s.sessions[token]))
            && (token in t ==> t[token] == s.sessions[token])
            && (token !in t ==> !Accepts(At(run, j), token, now) && !AcceptsUser(At(run, j), token, now))
  {
    NamesUsed(run, i);
    if token !in At(run, i + 1).sessions {
      OverForGood(run, i + 1, j, token, now);
    }
  }

  /** A purge removes exactly the sessions that are expired or revoked. */
  lemma PurgedExactly(s: State, now: real, token: string)
    ensures var t := Step(s, Purge, now).sessions;
            && (token in t
                <==> token in s.sessions && now < s.sessions[token].expiresAt && !s.sessions[token].revoked)
            && (token in t ==> t[token] == s.sessions[token])
  {
  }

  /** An operation on sessions touches those it names, and no others. */
  lemma OthersUntouched(s: State, op: Op, now: real, token: string)
    requires !op.Adopt? && !op.EraseInstallation? && !op.EraseUser? && !op.Purge?
    requires TokenOf(op) != Some(token) && (op.Refresh? ==> op.prior != token)
    requires (op.RevokeSession? || op.ValidateUser? || op.Logout?) ==> op.token != token
    ensures var t := Step(s, op, now).sessions;
            (token in t <==> token in s.sessions) && (token in t ==> t[token] == s.sessions[token])
  {
  }

  /** Adopting an installation that exists marks its sessions as the user's, and changes nothing else. */
  lemma AdoptionMarks(s: State, user: Uid, iid: Iid, now: real, token: string)
    ensures var s' := Step(s, Adopt(user, iid), now);
            var t := s'.sessions;
            && (token in t <==> token in s.sessions)
            && (token in t ==>
                  t[token] == if iid in s.installs && s.sessions[token].iid == Some(iid)
                              then s.sessions[token].(user := Some(user)) else s.sessions[token])
            && s'.installs == s.installs && (iid in s.installs ==> iid in s'.adopted && s'.adopted[iid] == user)
  {
  }

  /** The installation's id has been given out, and the installation is revoked or gone. */
  predicate Closed(s: State, used: Used, iid: Iid) {
    iid in used.iids && (iid in s.installs ==> s.installs[iid])
  }

  lemma ClosedStep(s: State, used: Used, op: Op, now: real, iid: Iid)
    requires Closed(s, used, iid) && NewNames(op, used)
    ensures Closed(Step(s, op, now), UsedAfter(used, op), iid)
  {
  }

  lemma {:induction false} ClosedStays(run: seq<Timed>, i: nat, j: nat, iid: Iid)
    requires Fair(run) && i <= j <= |run| && Closed(At(run, i), UsedAt(run, i), iid)
    ensures Closed(At(run, j), UsedAt(run, j), iid)
  {
    if i < j {
      ClosedStays(run, i, j - 1, iid);
      assert NewAt(run, j - 1);
      ClosedStep(At(run, j - 1), UsedAt(run, j - 1), run[j - 1].1, run[j - 1].0, iid);
    }
  }

  /** Nothing signed by a revoked or erased installation, and none of its sessions, is accepted again. */
  lemma {:induction false} ClosedForGood(run: seq<Timed>, i: nat, j: nat, iid: Iid, sig: Signed, token: string,
                                         now: real)
    requires Fair(run) && i <= j <= |run| && Closed(At(run, i), UsedAt(run, i), iid) && sig.iid == iid
    ensures var s := At(run, j);
            && !SignatureOk(s, sig, now)
            && (token in s.sessions && s.sessions[token].iid == Some(iid) ==> !Accepts(s, token, now))
  {
    ClosedStays(run, i, j, iid);
  }

  /** A granted revocation closes the installation; so do its erasure and that of the user it belongs to. */
  lemma {:induction false} Closes(run: seq<Timed>, i: nat, iid: Iid)
    requires Fair(run) && i < |run| && iid in At(run, i).installs
    requires var s, op := At(run, i), run[i].1;
             || (op.RevokeInstallation? && op.sig.iid == iid && Granted(s, op, run[i].0))
             || (op.EraseInstallation? && op.iid == iid)
             || (op.EraseUser? && iid in s.adopted && s.adopted[iid] == op.user)
    ensures Closed(At(run, i + 1), UsedAt(run, i + 1), iid)
  {
    NamesUsed(run, i);
    assert NewAt(run, i);
  }

  // ------------------------------------------------------------ user sessions

  /** A login's session by its history alone: when it began, was last renewed, and whether it was ended. */
  datatype History = History(user: Uid, login: real, last: real, ended: bool)

  function Until(h: History): real {
    Min(h.last + USER_TTL, h.login + USER_MAX_TTL)
  }

  /** Fifteen days from the last renewal, thirty from the login. */
  predicate InTime(h: History, now: real) {
    !h.ended && now < h.last + 15.0 * 86400.0 && now < h.login + 30.0 * 86400.0
  }

  function HistoriesAfter(m: map<string, History>, users: set<Uid>, op: Op, now: real): map<string, History> {
    match op
    case Login(user, token) => if user in users then m[token := History(user, now, now, false)] else m
    case ValidateUser(token) =>
      if token in m && InTime(m[token], now) then m[token := m[token].(last := now)] else m
    case Logout(token) => if token in m then m[token := m[token].(ended := true)] else m
    case EraseUser(user) => map t | t in m :: if m[t].user == user then m[t].(ended := true) else m[t]
    case _ => m
  }

  function HistoriesAt(run: seq<Timed>, j: nat): map<string, History>
    requires j <= |run|
  {
    if j == 0 then map[]
    else HistoriesAfter(HistoriesAt(run, j - 1), At(run, j - 1).users, run[j - 1].1, run[j - 1].0)
  }

  /** The stored session is what its history says, or is missing when that no longer matters. */
  ghost predicate Matches(s: Sessions, token: string, h: History, clock: real) {
    && h.user != "" && token != "" && h.login <= h.last <= clock
    && if token in s
       then && s[token].iid == None && s[token].user == Some(h.user) && s[token].loginAt == Some(h.login)
            && s[token].expiresAt == Until(h) && s[token].revoked == h.ended
       else h.ended || Until(h) <= clock
  }

  ghost predicate AllMatch(s: State, m: map<string, History>, used: Used, clock: real) {
    && m.Keys <= used.tokens && "" !in s.users
    && forall t :: t in m ==> Matches(s.sessions, t, m[t], clock)
  }

  lemma MatchValidate(s: State, m: map<string, History>, op: Op, clock: real, now: real, t: string)
    requires op.ValidateUser? && t in m && Matches(s.sessions, t, m[t], clock) && clock <= now
    ensures Matches(SessionsAfter(s, op, now), t, HistoriesAfter(m, s.users, op, now)[t], now)
  {
  }

  lemma MatchOther(s: State, m: map<string, History>, op: Op, clock: real, now: real, t: string)
    requires !op.ValidateUser? && t in m && Matches(s.sessions, t, m[t], clock) && clock <= now
             && TokenOf(op) != Some(t)
    ensures Matches(SessionsAfter(s, op, now), t, HistoriesAfter(m, s.users, op, now)[t], now)
  {
  }

  lemma MatchStep(s: State, m: map<string, History>, used: Used, op: Op, clock: real, now: real)
    requires AllMatch(s, m, used, clock) && clock <= now && NewNames(op, used)
    ensures AllMatch(Step(s, op, now), HistoriesAfter(m, s.users, op, now), UsedAfter(used, op), now)
  {
    var m' := HistoriesAfter(m, s.users, op, now);
    forall t | t in m'
      ensures Matches(SessionsAfter(s, op, now), t, m'[t], now)
    {
      if t in m {
        if op.ValidateUser? {
          MatchValidate(s, m, op, clock, now, t);
        } else {
          MatchOther(s, m, op, clock, now, t);
        }
      }
    }
  }

  lemma {:induction false} MatchAt(run: seq<Timed>, j: nat)
    requires Fair(run) && 0 < j <= |run|
    ensures AllMatch(At(run, j), HistoriesAt(run, j), UsedAt(run, j), ClockAt(run, j))
  {
    assert NewAt(run, j - 1);
    if j > 1 {
      MatchAt(run, j - 1);
      MatchStep(At(run, j - 1), HistoriesAt(run, j - 1), UsedAt(run, j - 1), run[j - 1].1, ClockAt(run, j - 1),
                run[j - 1].0);
    } else {
      MatchStep(EMPTY, map[], Used({}, {}), run[0].1, run[0].0, run[0].0);
    }
  }

  /** A login's session is accepted exactly by its history: in time, not ended, and its user exists. */
  lemma {:induction false} UserSessionAccepted(run: seq<Timed>, j: nat, token: string, now: real)
    requires Fair(run) && 0 < j <= |run| && ClockAt(run, j) <= now && token in HistoriesAt(run, j)
    ensures var h := HistoriesAt(run, j)[token];
            AcceptsUser(At(run, j), token, now) <==> InTime(h, now) && h.user in At(run, j).users
  {
    MatchAt(run, j);
  }

  /** The stored expiry never moves back, and never past thirty days from the login. */
  lemma {:induction false} ExpiryAdvances(run: seq<Timed>, j: nat, token: string)
    requires Fair(run) && 0 < j < |run| && token in HistoriesAt(run, j)
    requires token in At(run, j).sessions && token in At(run, j + 1).sessions
    ensures At(run, j).sessions[token].expiresAt <= At(run, j + 1).sessions[token].expiresAt
                                                 <= HistoriesAt(run, j)[token].login + USER_MAX_TTL
  {
    MatchAt(run, j);
    MatchAt(run, j + 1);
    assert NewAt(run, j);
    ExpiryOfStep(HistoriesAt(run, j), At(run, j).users, UsedAt(run, j), run[j].1, ClockAt(run, j), run[j].0, token);
  }

  lemma ExpiryOfStep(m: map<string, History>, users: set<Uid>, used: Used, op: Op, clock: real,
                     now: real, token: string)
    requires token in m && token in used.tokens && NewNames(op, used) && m[token].last <= clock <= now
    ensures var m' := HistoriesAfter(m, users, op, now);
            token in m' && Until(m[token]) <= Until(m'[token]) <= m[token].login + USER_MAX_TTL
  {
  }

  // ------------------------------------------------------------ the cap

  const FORTNIGHT := 1209600.0

  /** The run goes on with `more`, after which the user's session is accepted at `later`. */
  ghost predicate AcceptedAfter(run: seq<Timed>, more: seq<Timed>, token: string, later: real) {
    var all := run + more;
    Fair(all) && (all != [] ==> all[|all| - 1].0 <= later) && AcceptsUser(At(all, |all|), token, later)
  }

  /** However the run goes on, there is a time after which the session is not accepted. */
  ghost predicate Capped(run: seq<Timed>, token: string) {
    exists cap: real :: EndsBy(run, token, cap)
  }

  ghost predicate EndsBy(run: seq<Timed>, token: string, cap: real) {
    forall more, later :: AcceptedAfter(run, more, token, later) ==> later < cap
  }

  lemma {:induction false} AtPrefix(run: seq<Timed>, more: seq<Timed>, j: nat)
    requires j <= |run|
    ensures At(run + more, j) == At(run, j) && UsedAt(run + more, j) == UsedAt(run, j)
    ensures HistoriesAt(run + more, j) == HistoriesAt(run, j)
  {
    if j > 0 {
      AtPrefix(run, more, j - 1);
    }
  }

  /** The history of a login goes on under its token. */
  lemma LoginStep(m: map<string, History>, users: set<Uid>, used: Used, op: Op, now: real,
                  token: string)
    requires token in m && m.Keys <= used.tokens && NewNames(op, used)
    ensures var m' := HistoriesAfter(m, users, op, now); token in m' && m'[token].login == m[token].login
  {
  }

  lemma {:induction false} LoginStays(run: seq<Timed>, i: nat, j: nat, token: string)
    requires Fair(run) && 0 < i <= j <= |run| && token in HistoriesAt(run, i)
    ensures token in HistoriesAt(run, j) && HistoriesAt(run, j)[token].login == HistoriesAt(run, i)[token].login
  {
    if i < j {
      LoginStays(run, i, j - 1, token);
      HistoriesUsed(run, j - 1);
      assert NewAt(run, j - 1);
      LoginStep(HistoriesAt(run, j - 1), At(run, j - 1).users, UsedAt(run, j - 1), run[j - 1].1, run[j - 1].0, token);
    }
  }

  lemma {:induction false} HistoriesUsed(run: seq<Timed>, j: nat)
    requires Fair(run) && 0 < j <= |run|
    ensures HistoriesAt(run, j).Keys <= UsedAt(run, j).tokens
  {
    MatchAt(run, j);
  }

  /** A stored session that no login began. */
  ghost predicate Unlogged(s: State, m: map<string, History>, clock: real) {
    forall t :: t in s.sessions && t !in m ==>
      var p := s.sessions[t];
      p.loginAt == None && p.issuedAt <= clock && p.expiresAt <= p.issuedAt + USER_TTL
  }

  lemma UnloggedStep(s: State, m: map<string, History>, op: Op, clock: real, now: real)
    requires Unlogged(s, m, clock) && clock <= now
    ensures Unlogged(Step(s, op, now), HistoriesAfter(m, s.users, op, now), now)
  {
  }

  lemma {:induction false} UnloggedAt(run: seq<Timed>, j: nat)
    requires Fair(run) && 0 < j <= |run|
    ensures Unlogged(At(run, j), HistoriesAt(run, j), ClockAt(run, j))
  {
    if j > 1 {
      UnloggedAt(run, j - 1);
      UnloggedStep(At(run, j - 1), HistoriesAt(run, j - 1), run[j - 1].1, ClockAt(run, j - 1), run[j - 1].0);
    } else {
      UnloggedStep(EMPTY, map[], run[0].1, run[0].0, run[0].0);
    }
  }

  /** Accepted, and begun by no login: used now, the session is accepted in a fortnight. */
  lemma RenewedFortnight(s: State, m: map<string, History>, token: string, clock: real, now: real)
    requires Unlogged(s, m, clock) && clock <= now && token !in m && AcceptsUser(s, token, now)
    ensures AcceptsUser(Step(s, ValidateUser(token), now), token, now + FORTNIGHT)
    ensures token !in HistoriesAfter(m, s.users, ValidateUser(token), now)
  {
  }

  lemma {:induction false} FairMore(run: seq<Timed>, now: real, token: string)
    requires Fair(run) && run != [] && ClockAt(run, |run|) <= now
    ensures Fair(run + [(now, ValidateUser(token))])
  {
    var all := run + [(now, ValidateUser(token))];
    forall j: nat | j < |all|
      ensures NewAt(all, j)
    {
      if j < |run| {
        AtPrefix(run, [(now, ValidateUser(token))], j);
        assert NewAt(run, j);
      }
    }
  }

  lemma {:induction false} OneFortnight(run: seq<Timed>, token: string, now: real) returns (run': seq<Timed>)
    requires Fair(run) && run != [] && ClockAt(run, |run|) <= now
    requires token !in HistoriesAt(run, |run|) && AcceptsUser(At(run, |run|), token, now)
    ensures run' == run + [(now, ValidateUser(token))] && Fair(run')
    ensures token !in HistoriesAt(run', |run'|) && AcceptsUser(At(run', |run'|), token, now + FORTNIGHT)
  {
    run' := run + [(now, ValidateUser(token))];
    FairMore(run, now, token);
    AtPrefix(run, [(now, ValidateUser(token))], |run|);
    UnloggedAt(run, |run|);
    RenewedFortnight(At(run, |run|), HistoriesAt(run, |run|), token, ClockAt(run, |run|), now);
  }

  /** For any number of fortnights the run can go on so that the session is accepted after them. */
  lemma {:induction false} RenewedForEver(run: seq<Timed>, token: string, now: real, n: nat) returns (more: seq<Timed>)
    requires Fair(run) && run != [] && ClockAt(run, |run|) <= now
    requires token !in HistoriesAt(run, |run|) && AcceptsUser(At(run, |run|), token, now)
    ensures AcceptedAfter(run, more, token, now + n as real * FORTNIGHT)
    ensures forall i :: 0 <= i < |more| ==> more[i].1 == ValidateUser(token)
    decreases n
  {
    more := [];
    if n == 0 {
      assert run + [] == run;
    } else {
      var run' := OneFortnight(run, token, now);
      var rest := RenewedForEver(run', token, now + FORTNIGHT, n - 1);
      more := [(now, ValidateUser(token))] + rest;
      Rejoined(run, (now, ValidateUser(token)), rest, token, now + FORTNIGHT + (n - 1) as real * FORTNIGHT);
      assert now + FORTNIGHT + (n - 1) as real * FORTNIGHT == now + n as real * FORTNIGHT;
    }
  }

  lemma {:induction false} Rejoined(run: seq<Timed>, next: Timed, rest: seq<Timed>, token: string, later: real)
    requires AcceptedAfter(run + [next], rest, token, later)
    ensures AcceptedAfter(run, [next] + rest, token, later)
  {
    assert run + ([next] + rest) == run + [next] + rest;
  }

  lemma {:induction false} LoginCaps(run: seq<Timed>, token: string)
    requires Fair(run) && run != [] && token in HistoriesAt(run, |run|)
    ensures EndsBy(run, token, HistoriesAt(run, |run|)[token].login + USER_MAX_TTL)
  {
    forall more, later | AcceptedAfter(run, more, token, later)
      ensures later < HistoriesAt(run, |run|)[token].login + USER_MAX_TTL
    {
      var all := run + more;
      AtPrefix(run, more, |run|);
      LoginStays(all, |run|, |all|, token);
      UserSessionAccepted(all, |all|, token, later);
    }
  }

  /**
  The cap of thirty days holds exactly for the sessions that a login began.  Any other
  accepted session of a user can be kept alive for ever.
  */
  lemma {:induction false} CappedIffLogin(run: seq<Timed>, token: string, now: real)
    requires Fair(run) && run != [] && ClockAt(run, |run|) <= now && AcceptsUser(At(run, |run|), token, now)
    ensures Capped(run, token) <==> token in HistoriesAt(run, |run|)
  {
    if token in HistoriesAt(run, |run|) {
      LoginCaps(run, token);
    } else if cap: real :| EndsBy(run, token, cap) {
      OutlastsAny(run, token, now, cap);
    }
  }

  lemma {:induction false} OutlastsAny(run: seq<Timed>, token: string, now: real, cap: real)
    requires Fair(run) && run != [] && ClockAt(run, |run|) <= now && AcceptsUser(At(run, |run|), token, now)
    requires token !in HistoriesAt(run, |run|)
    ensures !EndsBy(run, token, cap)
  {
    var n: nat := if cap <= now then 0 else (cap - now).Floor + 1;
    assert cap - now <= n as real <= n as real * FORTNIGHT;
    var more := RenewedForEver(run, token, now, n);
  }

  /** Such a session exists: an adopted installation's own, used as its user's. */
  const ADOPTED_BEARER: seq<Timed> :=
    [(0.0, Bootstrap("i")), (0.0, SignUp("u")), (0.0, Create(SIGNED, "t")), (0.0, Adopt("u", "i"))]


  lemma UncappedReachable()
    ensures Fair(ADOPTED_BEARER) && !Capped(ADOPTED_BEARER, "t")
    ensures AcceptsUser(At(ADOPTED_BEARER, 4), "t", 0.0)
  {
    AdoptedBearerFair();
    AdoptedBearerState();
    CappedIffLogin(ADOPTED_BEARER, "t", 0.0);
  }

  lemma AdoptedBearerFair()
    ensures Fair(ADOPTED_BEARER)
  {
    var run := ADOPTED_BEARER;
    assert UsedAt(run, 1) == Used({}, {"i"});
    assert UsedAt(run, 2) == Used({}, {"i"});
    assert NewAt(run, 0) && NewAt(run, 1) && NewAt(run, 2) && NewAt(run, 3);
  }

  lemma AdoptedBearerState()
    ensures AcceptsUser(At(ADOPTED_BEARER, 4), "t", 0.0) && "t" !in HistoriesAt(ADOPTED_BEARER, 4)
    ensures At(ADOPTED_BEARER, 4).installs == map["i" := false]
  {
    var run := ADOPTED_BEARER;
    var sig := SIGNED;
    var s2 := At(run, 2);
    assert At(run, 1) == Step(EMPTY, Bootstrap("i"), 0.0);
    assert s2 == Step(At(run, 1), SignUp("u"), 0.0);
    assert s2.installs == map["i" := false] && s2.users == {"u"} && s2.nonces == map[];
    assert SignatureOk(s2, sig, 0.0);
    assert At(run, 3) == Step(s2, Create(sig, "t"), 0.0);
    assert HistoriesAt(run, 0) == map[] && HistoriesAt(run, 1) == map[] && HistoriesAt(run, 2) == map[];
    assert HistoriesAt(run, 3) == map[];
  }

  // ------------------------------------------------------------ the exact life of an installation's session

  /** When a session issued by operation `i` expires: in half an hour, or fifteen days after its last renewal. */
  function ExpiryAt(run: seq<Timed>, i: nat, j: nat, token: string): real
    requires i < j <= |run|
  {
    if j == i + 1 then run[i].0 + 1800.0
    else if RenewsAt(run, j - 1, token) then run[j - 1].0 + 15.0 * 86400.0
    else ExpiryAt(run, i, j - 1, token)
  }

  lemma {:induction false} NeverLoggedIn(run: seq<Timed>, i: nat, j: nat, token: string)
    requires Fair(run) && i < j <= |run| && TokenOf(run[i].1) == Some(token) && !run[i].1.Login?
    ensures token !in HistoriesAt(run, j)
  {
    assert NewAt(run, i) && NewAt(run, j - 1);
    if i < j - 1 {
      NeverLoggedIn(run, i, j - 1, token);
      StaysUsed(run, i, j - 1, token);
    } else if i > 0 {
      HistoriesUsed(run, i);
    }
  }

  /** A renewal of a session that no login began is always for the full fifteen days. */
  lemma RenewalStep(s: State, m: map<string, History>, token: string, clock: real, now: real)
    requires Unlogged(s, m, clock) && clock <= now && token !in m && Renews(s, token, now)
    ensures var t := Step(s, ValidateUser(token), now).sessions;
            token in t && t[token].expiresAt == now + USER_TTL && t[token].iid == s.sessions[token].iid
  {
  }

  /** The stored session is for the installation that signed for it, and expires when its history says. */
  predicate StoredAs(run: seq<Timed>, i: nat, j: nat, token: string, iid: Iid)
    requires i < j <= |run|
  {
    var t := At(run, j).sessions;
    token in t ==> t[token].iid == Some(iid) && t[token].expiresAt == ExpiryAt(run, i, j, token)
  }

  lemma {:induction false} StoredAsIssued(run: seq<Timed>, i: nat, j: nat, token: string)
    requires Fair(run) && i < j <= |run| && TokenOf(run[i].1) == Some(token) && !run[i].1.Login?
    ensures StoredAs(run, i, j, token, SignedBy(run[i].1).value.iid)
  {
    if i == j - 1 {
      assert NewAt(run, i);
      NamesUsed(run, i);
    } else {
      StoredAsIssued(run, i, j - 1, token);
      NeverLoggedIn(run, i, j - 1, token);
      StaysUsed(run, i, j - 1, token);
      assert NewAt(run, j - 1);
      StoredStep(run, i, j - 1, token);
    }
  }

  lemma StoredStep(run: seq<Timed>, i: nat, j: nat, token: string)
    requires Fair(run) && i < j < |run| && TokenOf(run[j].1) != Some(token) && SignedBy(run[i].1).Some?
    requires StoredAs(run, i, j, token, SignedBy(run[i].1).value.iid) && token !in HistoriesAt(run, j)
    ensures StoredAs(run, i, j + 1, token, SignedBy(run[i].1).value.iid)
  {
    var s, op, now := At(run, j), run[j].1, run[j].0;
    NoRevival(s, op, now, token);
    if RenewsAt(run, j, token) {
      UnloggedAt(run, j);
      RenewalStep(s, HistoriesAt(run, j), token, ClockAt(run, j), now);
    } else {
      ExpiryStep(s, op, now, token);
    }
  }

  /**
  In every run an installation's session is accepted exactly while it is stored and not
  revoked, its installation lives, and half an hour from its issue is not over, or fifteen
  days from its last renewal as a user's.
  */
  lemma {:induction false} InstallationSessionAccepted(run: seq<Timed>, i: nat, j: nat, token: string, now: real)
    requires Fair(run) && i < j <= |run| && TokenOf(run[i].1) == Some(token) && !run[i].1.Login?
    ensures var s, iid := At(run, j), SignedBy(run[i].1).value.iid;
            Accepts(s, token, now)
            <==> && token in s.sessions && !s.sessions[token].revoked && iid in s.installs && !s.installs[iid]
                 && now < ExpiryAt(run, i, j, token)
  {
    assert NewAt(run, i);
    StoredAsIssued(run, i, j, token);
  }

  /** A session that was granted is accepted from then on, for half an hour. */
  lemma {:induction false} IssuedAccepted(run: seq<Timed>, i: nat, now: real)
    requires Fair(run) && i < |run| && (run[i].1.Create? || run[i].1.Refresh?)
    requires Granted(At(run, i), run[i].1, run[i].0)
    ensures Accepts(At(run, i + 1), run[i].1.token, now) <==> now < run[i].0 + 1800.0
  {
    assert NewAt(run, i);
    NamesUsed(run, i);
  }

  /**
  As a user's session it is accepted exactly while it is stored and not revoked, marked
  with a user who exists, and its expiry, the same as before, has not come.
  */
  lemma {:induction false} BearerAsUser(run: seq<Timed>, i: nat, j: nat, token: string, now: real)
    requires Fair(run) && i < j <= |run| && TokenOf(run[i].1) == Some(token) && !run[i].1.Login?
    requires ClockAt(run, j) <= now
    ensures var s := At(run, j);
            AcceptsUser(s, token, now)
            <==> && token in s.sessions && !s.sessions[token].revoked && s.sessions[token].user.Some?
                 && s.sessions[token].user.value != "" && s.sessions[token].user.value in s.users
                 && now < ExpiryAt(run, i, j, token)
  {
    assert NewAt(run, i);
    StoredAsIssued(run, i, j, token);
    NeverLoggedIn(run, i, j, token);
    UnloggedAt(run, j);
  }

  const RENEWED_BEARER: seq<Timed> := ADOPTED_BEARER + [(0.0, ValidateUser("t"))]

  /** So an adopted installation's session can be accepted when its half hour is over. */
  lemma BearerOutlives()
    ensures Fair(RENEWED_BEARER) && RENEWED_BEARER[2] == (0.0, Create(SIGNED, "t"))
    ensures Accepts(At(RENEWED_BEARER, 5), "t", SESSION_TTL)
  {
    AdoptedBearerFair();
    AdoptedBearerState();
    FairMore(ADOPTED_BEARER, 0.0, "t");
    AtPrefix(ADOPTED_BEARER, [(0.0, ValidateUser("t"))], 4);
    var s := At(ADOPTED_BEARER, 4);
    assert At(RENEWED_BEARER, 5) == Step(s, ValidateUser("t"), 0.0);
    assert RENEWED_BEARER[4] == (0.0, ValidateUser("t"));
    assert RenewsAt(RENEWED_BEARER, 4, "t");
    assert At(RENEWED_BEARER, 5).installs == map["i" := false];
    assert ExpiryAt(RENEWED_BEARER, 2, 5, "t") == USER_TTL;
    InstallationSessionAccepted(RENEWED_BEARER, 2, 5, "t", SESSION_TTL);
  }

  // ------------------------------------------------------------ purging

  /** The run with its purges left out. */
  function UnpurgedAt(run: seq<Timed>, j: nat): State
    requires j <= |run|
  {
    if j == 0 then EMPTY
    else if run[j - 1].1.Purge? then UnpurgedAt(run, j - 1)
    else Step(UnpurgedAt(run, j - 1), run[j - 1].1, run[j - 1].0)
  }

  /** `lean` is `full` without some sessions that are dead by `now`. */
  ghost predicate Leaner(full: State, lean: State, now: real) {
    && lean == full.(sessions := lean.sessions)
    && (forall k :: k in lean.sessions ==> k in full.sessions && lean.sessions[k] == full.sessions[k])
    && (forall k :: k in full.sessions && k !in lean.sessions ==> Dead(full.sessions[k], now))
  }

  lemma LeanerDecides(full: State, lean: State, clock: real, op: Op, now: real)
    requires Leaner(full, lean, clock) && clock <= now
    ensures Granted(full, op, now) == Granted(lean, op, now)
  {
  }

  /** An operation does to a session, dead or alive, the same with and without the purge. */
  lemma LeanerRow(full: State, lean: State, clock: real, op: Op, now: real, k: string)
    requires Leaner(full, lean, clock) && clock <= now && !op.Purge?
    requires TokenOf(op).Some? ==> TokenOf(op).value !in full.sessions
    ensures var f, l := SessionsAfter(full, op, now), SessionsAfter(lean, op, now);
            if k in l then k in f && l[k] == f[k] else k in f ==> Dead(f[k], now)
  {
    LeanerDecides(full, lean, clock, op, now);
  }

  lemma LeanerStep(full: State, lean: State, clock: real, op: Op, now: real)
    requires Leaner(full, lean, clock) && clock <= now && !op.Purge?
    requires TokenOf(op).Some? ==> TokenOf(op).value !in full.sessions
    ensures Leaner(Step(full, op, now), Step(lean, op, now), now)
  {
    forall k {
      LeanerRow(full, lean, clock, op, now, k);
    }
  }

  lemma LeanerPurge(full: State, lean: State, clock: real, now: real)
    requires Leaner(full, lean, clock) && clock <= now
    ensures Leaner(full, Step(lean, Purge, now), now)
  {
  }

  lemma {:induction false} UnpurgedUsed(run: seq<Timed>, j: nat)
    requires j <= |run|
    ensures UnpurgedAt(run, j).sessions.Keys <= UsedAt(run, j).tokens
  {
    if j > 0 {
      UnpurgedUsed(run, j - 1);
    }
  }

  lemma {:induction false} LeanerAt(run: seq<Timed>, j: nat)
    requires Fair(run) && 0 < j <= |run|
    ensures Leaner(UnpurgedAt(run, j), At(run, j), ClockAt(run, j))
  {
    var (now, op) := run[j - 1];
    var clock := now;
    if j > 1 {
      LeanerAt(run, j - 1);
      clock := ClockAt(run, j - 1);
    }
    var full, lean := UnpurgedAt(run, j - 1), At(run, j - 1);
    assert NewAt(run, j - 1);
    if op.Purge? {
      LeanerPurge(full, lean, clock, now);
    } else {
      UnpurgedUsed(run, j - 1);
      LeanerStep(full, lean, clock, op, now);
    }
  }

  /** Purging, at any time and however often, changes nothing of what is granted later. */
  lemma {:induction false} PurgeInvisible(run: seq<Timed>, j: nat)
    requires Fair(run) && j < |run|
    ensures Granted(At(run, j), run[j].1, run[j].0) == Granted(UnpurgedAt(run, j), run[j].1, run[j].0)
  {
    if j > 0 {
      LeanerAt(run, j);
      LeanerDecides(UnpurgedAt(run, j), At(run, j), ClockAt(run, j), run[j].1, run[j].0);
    }
  }

  // ------------------------------------------------------------ the services

  datatype Error = Unauthenticated | SessionExpired

  /** What a service call answers. */
  datatype Result<T> = Ok(value: T) | Err(error: Error)

  class AuthService {
    var s: State

    constructor ()
      ensures s == EMPTY
    {
      s := EMPTY;
    }

    method CheckSignature(sig: Signed, now: real) returns (ok: bool)
      modifies this
      ensures ok <==> SignatureOk(old(s), sig, now)
      ensures s == old(s).(nonces := NoncesAfter(old(s), sig, now))
    {
      var gap := now - sig.timestamp as real;
      if (if gap < 0.0 then -gap else gap) > CLOCK_SKEW + NONCE_WINDOW {
        return false;
      }
      if sig.iid !in s.installs || s.installs[sig.iid] {
        return false;
      }
      ok := UseNonce(sig.nonce, now);
      ok := ok && sig.genuine;
    }

    /** Refuses short nonces and recent ones; otherwise prunes the table and records this one. */
    method UseNonce(nonce: string, now: real) returns (ok: bool)
      modifies this
      ensures ok <==> NonceFree(old(s), nonce, now)
      ensures var kept := map n | n in old(s).nonces && old(s).nonces[n] > now :: old(s).nonces[n];
              s == if ok then old(s).(nonces := kept[nonce := now + NONCE_WINDOW]) else old(s)
    {
      if |nonce| < 16 {
        return false;
      }
      if nonce in s.nonces && s.nonces[nonce] > now {
        return false;
      }
      s := s.(nonces := map n | n in s.nonces && s.nonces[n] > now :: s.nonces[n]);
      s := s.(nonces := s.nonces[nonce := now + NONCE_WINDOW]);
      return true;
    }

    method Issue(iid: Iid, token: string, now: real)
      modifies this
      ensures s == old(s).(sessions := old(s).sessions[token := Issued(iid, now)])
    {
      s := s.(sessions := s.sessions[token := Payload(Some(iid), None, None, now, now + SESSION_TTL, false)]);
    }

    method CreateSession(sig: Signed, token: string, now: real) returns (ok: bool)
      modifies this
      ensures s == Step(old(s), Create(sig, token), now) && (ok <==> Granted(old(s), Create(sig, token), now))
    {
      ok := CheckSignature(sig, now);
      if ok {
        Issue(sig.iid, token, now);
      }
    }

    method ValidateSession(token: string, now: real) returns (r: Result<Payload>)
      ensures r.Ok? <==> Accepts(s, token, now)
      ensures r.Ok? ==> r.value == AsRecord(s.sessions[token])
      ensures r == Err(SessionExpired) ==> token in s.sessions && s.sessions[token].expiresAt <= now
    {
      if token == "" || token !in s.sessions {
        return Err(Unauthenticated);
      }
      var record := s.sessions[token];
      if record.iid == None || record.revoked {
        return Err(Unauthenticated);
      }
      if record.iid.value !in s.installs || s.installs[record.iid.value] {
        return Err(Unauthenticated);
      }
      if now >= record.expiresAt {
        return Err(SessionExpired);
      }
      return Ok(AsRecord(record));
    }

    /** Rotation: the session asked for is revoked and a new one issued. */
    method RefreshSession(sig: Signed, prior: string, token: string, now: real) returns (ok: bool)
      requires token != prior
      modifies this
      ensures s == Step(old(s), Refresh(sig, prior, token), now)
      ensures ok <==> Granted(old(s), Refresh(sig, prior, token), now)
    {
      ok := CheckSignature(sig, now);
      if !ok {
        return;
      }
      var record := ValidateSession(prior, now);
      if record.Err? || record.value.iid != Some(sig.iid) {
        return false;
      }
      s := s.(sessions := s.sessions[prior := Revoked(record.value)]);
      Issue(sig.iid, token, now);
    }

    method Revoke(token: string, now: real)
      modifies this
      ensures s == Step(old(s), RevokeSession(token), now)
    {
      if token == "" || token !in s.sessions || s.sessions[token].iid == None {
        return;
      }
      s := s.(sessions := s.sessions[token := Revoked(s.sessions[token])]);
    }

    method RevokeInstall(sig: Signed, now: real) returns (ok: bool)
      modifies this
      ensures s == Step(old(s), RevokeInstallation(sig), now) && (ok <==> Granted(old(s), RevokeInstallation(sig), now))
    {
      ok := CheckSignature(sig, now);
      if ok && sig.iid in s.installs {
        s := s.(installs := s.installs[sig.iid := true]);
      }
    }

    /** Renews a user's session on every use, within the cap; only then is the user looked up. */
    method ValidateUserSession(token: string, now: real) returns (r: Result<Uid>)
      modifies this
      ensures s == Step(old(s), ValidateUser(token), now)
      ensures r.Ok? <==> Granted(old(s), ValidateUser(token), now)
      ensures r.Ok? ==> Some(r.value) == old(s).sessions[token].user
    {
      if token == "" || token !in s.sessions || s.sessions[token].user.GetOr("") == "" {
        return Err(Unauthenticated);
      }
      var payload := s.sessions[token];
      if payload.revoked {
        return Err(Unauthenticated);
      }
      var loginAt := payload.loginAt.GetOr(payload.issuedAt);
      if now >= loginAt + USER_MAX_TTL || now >= payload.expiresAt {
        return Err(SessionExpired);
      }
      var until := Min(now + USER_TTL, loginAt + USER_MAX_TTL);
      if until != payload.expiresAt {
        s := s.(sessions := s.sessions[token := payload.(expiresAt := until, issuedAt := now)]);
      } else {
        assert s.sessions[token := payload] == s.sessions;
      }
      if payload.user.value !in s.users {
        return Err(Unauthenticated);
      }
      return Ok(payload.user.value);
    }

    /** Signing out revokes, whether or not the session has expired. */
    method LogoutUser(token: string, now: real) returns (ended: bool)
      modifies this
      ensures s == Step(old(s), Logout(token), now)
      ensures ended <==> token != "" && token in old(s).sessions && old(s).sessions[token].user.GetOr("") != ""
                         && !old(s).sessions[token].revoked
    {
      ended := false;
      if token != "" && token in s.sessions && s.sessions[token].user.GetOr("") != "" {
        var payload := s.sessions[token];
        if !payload.revoked {
          s := s.(sessions := s.sessions[token := payload.(revoked := true)]);
          ended := true;
        } else {
          assert s.sessions[token := payload] == s.sessions;
        }
      }
    }
  }
}
