/**
Whole runs of the backend's operations: sign-ups, logins, callbacks, refreshes,
disconnects, erasures, in any order, by any users.  What every run keeps, and what
follows for a request: which requests are refused, when a token can be missing, how long
a served token lives, and that an erased user is gone for good.
*/
module OwnershipRuns {
  import opened Options
  import opened Tables
  import opened Ownership
  import opened OAuth

  /** `token` names a session; the operations given one act only if it is a live user's. */
  datatype Op =
    | Bootstrap(iid: Iid)
    | Revoke(iid: Iid)
    | OpenSession(token: string, iid: Iid)
    | DropSession(token: string)
    | SignUp(user: Uid, on: Option<Iid>)
    | Login(user: Uid, token: string, on: Option<Iid>)
    | Logout(token: string, iid: Iid)
    | Request(token: string, iid: Iid, p: Provider)
    | Begin(token: string, txn: string, iid: Iid, p: Provider)
    | Callback(k: ConnKey, account: string, pair: TokenPair, at: real)
    | Ensure(token: string, k: ConnKey, locked: real, reply: Reply, at: real)
    | Disconnect(token: string, k: ConnKey)
    | EraseInstallation(iid: Iid, services: set<Provider>)
    | EraseUser(token: string)

  /** The user a session acts for. */
  function Actor(db: Db, token: string): Option<Uid> {
    if token in db.sessions && db.sessions[token].user.Some? && db.sessions[token].user.value in db.users
    then db.sessions[token].user else None
  }

  function SignedIn(db: Db, user: Uid, on: Option<Iid>): Db {
    match on
    case None => db
    case Some(iid) => if user == "" || iid == "" then db else LoggedIn(db, user, iid)
  }

  /** The request `token` makes of provider `p` on `iid`, if its owner check passes. */
  function Admitted(db: Db, token: string, iid: Iid, p: Provider): (bool, Db) {
    match Actor(db, token)
    case None => (false, db)
    case Some(user) => Enforced(db, user, iid, p)
  }

  function Step(db: Db, now: real, op: Op): Db {
    match op
    case Bootstrap(iid) => db.(installs := db.installs[iid := false])
    case Revoke(iid) => if iid in db.installs then db.(installs := db.installs[iid := true]) else db
    case OpenSession(token, iid) => db.(sessions := db.sessions[token := Session(Some(iid), None)])
    case DropSession(token) => db.(sessions := db.sessions - {token})
    case SignUp(user, on) => if user in db.users then db else SignedIn(db.(users := db.users + {user}), user, on)
    case Login(user, token, on) =>
      if user !in db.users then db
      else SignedIn(db.(sessions := db.sessions[token := Session(None, Some(user))]), user, on)
    case Logout(token, iid) =>
      if token in db.sessions && db.sessions[token].user.Some? && iid != ""
      then db.(links := Cleaned(db.links, ConnsOf(db.links.conns, iid))) else db
    case Request(token, iid, p) => Admitted(db, token, iid, p).1
    case Begin(token, txn, iid, p) =>
      var (ok, d) := Admitted(db, token, iid, p);
      if ok then d.(txns := d.txns[txn := iid]) else d
    case Callback(k, account, pair, at) => Stamped(db.(links := Saved(db.links, k, account, pair, at)), k, account)
    case Ensure(token, k, locked, reply, at) =>
      var (ok, d) := Admitted(db, token, k.iid, k.provider);
      if ok then d.(links := EnsureFresh(d.links, k, now, locked, reply, at).1) else d
    case Disconnect(token, k) =>
      var (ok, d) := Admitted(db, token, k.iid, k.provider);
      if ok && k in d.links.conns then d.(links := Drop(d.links, {k}, d.links.tokens.Keys)) else d
    case EraseInstallation(iid, services) => InstallErased(db, iid, services)
    case EraseUser(token) =>
      (match Actor(db, token) case None => db case Some(user) => UserErased(db, user))
  }

  /** When the operation ends, having begun at `now`. */
  function Ends(op: Op, now: real): real {
    match op
    case Callback(_, _, _, at) => at
    case Ensure(_, _, _, _, at) => at
    case _ => now
  }

  /** The clock never goes back, and provider calls are answered within `latency` of the answer being issued. */
  predicate Timely(op: Op, clock: real, now: real, latency: real) {
    && clock <= now
    && match op
       case Callback(_, _, pair, at) => now <= pair.issuedAt <= at <= pair.issuedAt + latency
       case Ensure(_, _, locked, reply, at) =>
         && now <= locked <= at
         && (reply.Renewed? ==> locked <= reply.pair.issuedAt <= at <= reply.pair.issuedAt + latency)
       case _ => true
  }

  /** Each operation of a run comes with the time at which it begins. */
  type Timed = (real, Op)

  function Run(db: Db, run: seq<Timed>): Db
    decreases |run|
  {
    if run == [] then db else Run(Step(db, run[0].0, run[0].1), run[1..])
  }

  predicate TimelyRun(clock: real, run: seq<Timed>, latency: real)
    decreases |run|
  {
    run == [] || (Timely(run[0].1, clock, run[0].0, latency) && TimelyRun(Ends(run[0].1, run[0].0), run[1..], latency))
  }

  function Clock(clock: real, run: seq<Timed>): real
    decreases |run|
  {
    if run == [] then clock else Clock(Ends(run[0].1, run[0].0), run[1..])
  }

  // ------------------------------------------------------------ what holds of the tables

  /** No connection was dated later than `now`, nor much later than its account's current pair was issued. */
  ghost predicate Dated(l: Links, now: real, latency: real) {
    forall k :: k in l.conns ==>
      && l.conns[k].obtainedAt <= now
      && (l.conns[k].account.Some? ==>
            var t := TokKey(k.provider, l.conns[k].account.value);
            t in l.tokens ==> l.conns[k].obtainedAt <= l.tokens[t].issuedAt + latency)
  }

  ghost predicate AccountsKnown(l: Links) {
    forall k :: k in l.conns ==> l.conns[k].account.Some?
  }

  /** On an adopted installation no connection is marked as anybody else's. */
  ghost predicate MarkersAgree(conns: map<ConnKey, Entry>, adopted: map<Iid, Uid>) {
    forall k :: k in conns && k.iid in adopted && conns[k].marker.Some? ==> conns[k].marker.value == adopted[k.iid]
  }

  /** What the linked tables keep by themselves. */
  ghost predicate Sound(l: Links) {
    Linked(l) && OwnersHaveRows(l) && AccountsKnown(l)
  }

  ghost predicate Inv(db: Db, now: real, latency: real) {
    && Sound(db.links) && Dated(db.links, now, latency)
    && MarkersAgree(db.links.conns, db.adopted) && db.adopted.Keys <= db.installs.Keys
  }

  lemma DropKeeps(l: Links, ks: set<ConnKey>, may: set<TokKey>, now: real, later: real,
                  latency: real)
    requires Sound(l) && Dated(l, now, latency) && now <= later
    ensures Sound(Drop(l, ks, may)) && Dated(Drop(l, ks, may), later, latency)
  {
    DropKeepsLinked(l, ks, may);
  }

  lemma AdoptKeeps(db: Db, user: Uid, iid: Iid, now: real, latency: real)
    requires Inv(db, now, latency)
    ensures Inv(Adopted(db, user, iid), now, latency)
  {
    if iid in db.installs {
      MarkKeeps(db.links, iid, user, now, latency);
      assert (db.adopted[iid := user]).Keys == db.adopted.Keys + {iid};
    }
  }

  lemma MarkKeeps(l: Links, iid: Iid, user: Uid, now: real, latency: real)
    requires Sound(l) && Dated(l, now, latency)
    ensures var d := Links(MarkedConns(l.conns, iid, user), l.tokens, OwnersSet(l, PairsOf(l.conns, iid), user));
            Sound(d) && Dated(d, now, latency)
  {
  }

  /** Only foreign connections go before the adoption, which then marks whatever is left. */
  lemma SignInKeeps(db: Db, user: Uid, on: Option<Iid>, now: real, latency: real)
    requires Inv(db, now, latency)
    ensures Inv(SignedIn(db, user, on), now, latency)
  {
    if on.Some? {
      var f := Foreign(db.links, user, on.value);
      var d := db.(links := Cleaned(db.links, f));
      DropKeeps(db.links, f, EligibleRows(db.links), now, now, latency);
      AdoptKeeps(d, user, on.value, now, latency);
    }
  }

  /** Marks and owners matter neither to the links nor to the dates. */
  lemma RemarkKeeps(l: Links, conns: map<ConnKey, Entry>, owners: map<TokKey, Uid>, now: real,
                    latency: real)
    requires Sound(l) && Dated(l, now, latency) && owners.Keys <= l.tokens.Keys && conns.Keys == l.conns.Keys
    requires forall k :: k in conns ==> conns[k] == l.conns[k].(marker := conns[k].marker)
    ensures Sound(Links(conns, l.tokens, owners)) && Dated(Links(conns, l.tokens, owners), now, latency)
  {
  }

  lemma EnforceKeeps(db: Db, user: Uid, iid: Iid, p: Provider, now: real, latency: real)
    requires Inv(db, now, latency)
    ensures Inv(Enforced(db, user, iid, p).1, now, latency)
  {
    var l, d := db.links, Enforced(db, user, iid, p).1;
    if d != db {
      assert d.links.conns.Keys == l.conns.Keys && d.links.owners.Keys <= l.tokens.Keys;
      RemarkKeeps(l, d.links.conns, d.links.owners, now, latency);
    }
  }

  lemma AdmitKeeps(db: Db, token: string, iid: Iid, p: Provider, now: real, latency: real)
    requires Inv(db, now, latency)
    ensures Inv(Admitted(db, token, iid, p).1, now, latency)
  {
    if Actor(db, token).Some? {
      EnforceKeeps(db, Actor(db, token).value, iid, p, now, latency);
    }
  }

  lemma SaveSound(l: Links, k: ConnKey, account: string, pair: TokenPair, at: real)
    requires Sound(l)
    ensures Sound(Saved(l, k, account, pair, at))
  {
  }

  /** The new pair is the youngest: no connection of the account is dated after its issue plus the latency. */
  lemma SaveDated(l: Links, k: ConnKey, account: string, pair: TokenPair, at: real, now: real,
                  latency: real)
    requires Dated(l, now, latency) && now <= pair.issuedAt <= at <= pair.issuedAt + latency
    ensures Dated(Saved(l, k, account, pair, at), at, latency)
  {
  }

  lemma StampKeeps(db: Db, k: ConnKey, account: string, now: real, latency: real)
    requires Inv(db, now, latency)
    ensures Inv(Stamped(db, k, account), now, latency)
  {
  }

  lemma EnsureKeeps(l: Links, k: ConnKey, now: real, locked: real, reply: Reply, at: real,
                    latency: real)
    requires Sound(l) && Dated(l, now, latency) && now <= locked <= at
    requires reply.Renewed? ==> locked <= reply.pair.issuedAt <= at <= reply.pair.issuedAt + latency
    ensures var d := EnsureFresh(l, k, now, locked, reply, at).1; Sound(d) && Dated(d, at, latency)
  {
  }

  // ------------------------------------------------------------ every step, every run

  lemma CallbackKeeps(db: Db, now: real, op: Op, latency: real)
    requires Inv(db, now, latency) && op.Callback? && Timely(op, now, now, latency)
    ensures Inv(Step(db, now, op), Ends(op, now), latency)
  {
    var saved := Saved(db.links, op.k, op.account, op.pair, op.at);
    SaveSound(db.links, op.k, op.account, op.pair, op.at);
    SaveDated(db.links, op.k, op.account, op.pair, op.at, now, latency);
    StampKeeps(db.(links := saved), op.k, op.account, op.at, latency);
  }

  lemma EnsureStepKeeps(db: Db, now: real, op: Op, latency: real)
    requires Inv(db, now, latency) && op.Ensure? && Timely(op, now, now, latency)
    ensures Inv(Step(db, now, op), Ends(op, now), latency)
  {
    AdmitKeeps(db, op.token, op.k.iid, op.k.provider, now, latency);
    var (ok, d) := Admitted(db, op.token, op.k.iid, op.k.provider);
    if ok {
      EnsureKeeps(d.links, op.k, now, op.locked, op.reply, op.at, latency);
    } else {
      Later(d, now, op.at, latency);
    }
  }

  lemma Later(db: Db, now: real, later: real, latency: real)
    requires Inv(db, now, latency) && now <= later
    ensures Inv(db, later, latency)
  {
  }

  lemma EraseUserKeeps(db: Db, user: Uid, now: real, latency: real)
    requires Inv(db, now, latency)
    ensures Inv(UserErased(db, user), now, latency)
  {
    DropKeeps(db.links, Mine(db, user), ErasableRows(db.links, user), now, now, latency);
  }

  lemma EraseInstallationKeeps(db: Db, iid: Iid, services: set<Provider>, now: real, latency: real)
    requires Inv(db, now, latency)
    ensures Inv(InstallErased(db, iid, services), now, latency)
  {
    DropKeeps(db.links, ConnsWith(db.links.conns, iid, services), db.links.tokens.Keys, now, now, latency);
  }

  lemma LogoutKeeps(db: Db, iid: Iid, now: real, latency: real)
    requires Inv(db, now, latency)
    ensures Inv(db.(links := Cleaned(db.links, ConnsOf(db.links.conns, iid))), now, latency)
  {
    DropKeeps(db.links, ConnsOf(db.links.conns, iid), EligibleRows(db.links), now, now, latency);
  }

  lemma DisconnectKeeps(db: Db, k: ConnKey, now: real, latency: real)
    requires Inv(db, now, latency)
    ensures Inv(db.(links := Drop(db.links, {k}, db.links.tokens.Keys)), now, latency)
  {
    DropKeeps(db.links, {k}, db.links.tokens.Keys, now, now, latency);
  }

  lemma StepKeeps(db: Db, clock: real, now: real, op: Op, latency: real)
    requires Inv(db, clock, latency) && Timely(op, clock, now, latency)
    ensures Inv(Step(db, now, op), Ends(op, now), latency)
  {
    Later(db, clock, now, latency);
    match op
    case SignUp(user, on) => SignInKeeps(db.(users := db.users + {user}), user, on, now, latency);
    case Login(user, token, on) =>
      SignInKeeps(db.(sessions := db.sessions[token := Session(None, Some(user))]), user, on, now, latency);
    case Logout(token, iid) => LogoutKeeps(db, iid, now, latency);
    case Request(token, iid, p) => AdmitKeeps(db, token, iid, p, now, latency);
    case Begin(token, _, iid, p) => AdmitKeeps(db, token, iid, p, now, latency);
    case Callback(_, _, _, _) => CallbackKeeps(db, now, op, latency);
    case Ensure(_, _, _, _, _) => EnsureStepKeeps(db, now, op, latency);
    case Disconnect(token, k) =>
      AdmitKeeps(db, token, k.iid, k.provider, now, latency);
      DisconnectKeeps(Admitted(db, token, k.iid, k.provider).1, k, now, latency);
    case EraseInstallation(iid, services) => EraseInstallationKeeps(db, iid, services, now, latency);
    case EraseUser(token) =>
      if Actor(db, token).Some? {
        EraseUserKeeps(db, Actor(db, token).value, now, latency);
      }
    case _ =>
  }

  /** Every run keeps the tables linked, sound, consistently marked and consistently dated. */
  lemma {:induction false} RunKeeps(db: Db, clock: real, run: seq<Timed>, latency: real)
    requires Inv(db, clock, latency) && TimelyRun(clock, run, latency)
    ensures Inv(Run(db, run), Clock(clock, run), latency)
    decreases |run|
  {
    if run != [] {
      var (now, op) := run[0];
      StepKeeps(db, clock, now, op, latency);
      RunKeeps(Step(db, now, op), Ends(op, now), run[1..], latency);
    }
  }

  const EMPTY := Db(Links(map[], map[], map[]), map[], map[], map[], map[], {})

  // ------------------------------------------------------------ what follows for a request

  /** A connected account always has its token row, whatever was erased, shared or taken over before. */
  lemma {:induction false} TokensNeverMissing(run: seq<Timed>, clock: real, latency: real, k: ConnKey, now: real,
                                              locked: real, reply: Reply, at: real)
    requires TimelyRun(clock, run, latency)
    ensures var db := Run(EMPTY, run);
            var r := EnsureFresh(db.links, k, now, locked, reply, at).0;
            r != TokensMissing && r != NoAccount && (r == NotConnected <==> k !in db.links.conns)
  {
    RunKeeps(EMPTY, clock, run, latency);
  }

  /** The reading of the clock at which a stored token is found current: the first, or the one inside the lock. */
  function AcceptedAt(l: Links, k: ConnKey, now: real, locked: real): real {
    if k in l.conns && Ref(k, l.conns[k]).Some? && Ref(k, l.conns[k]).value in l.tokens
       && !Current(l.tokens[Ref(k, l.conns[k]).value], l.conns[k], now)
    then locked else now
  }

  /**
  A served token was issued just now, or has more than the margin, less the latency of one
  provider call, of its stated life left at the reading of the clock that accepted it, even
  when other installations refreshed it.
  */
  lemma {:induction false} ServedTokenLives(run: seq<Timed>, clock: real, latency: real, k: ConnKey, now: real,
                                            locked: real, reply: Reply, at: real)
    requires TimelyRun(clock, run, latency) && Clock(clock, run) <= now <= locked
    ensures var l := Run(EMPTY, run).links;
            var r := EnsureFresh(l, k, now, locked, reply, at).0;
            r.Access? ==>
              || (reply.Renewed? && r.pair == reply.pair)
              || (r.pair.issuedAt + r.pair.expiresIn as real - AcceptedAt(l, k, now, locked)
                  > REFRESH_MARGIN as real - latency)
  {
    RunKeeps(EMPTY, clock, run, latency);
  }

  /** On an adopted installation only its user is served, and only where the account's row is not another user's. */
  lemma {:induction false} AdoptedAccess(run: seq<Timed>, clock: real, latency: real, who: Uid, iid: Iid, p: Provider)
    requires TimelyRun(clock, run, latency) && iid in Run(EMPTY, run).adopted
    ensures var db := Run(EMPTY, run);
            var k := ConnKey(iid, p);
            Enforced(db, who, iid, p).0
            <==> who == db.adopted[iid]
                 && (k in db.links.conns && db.links.conns[k].account.GetOr("") != "" ==>
                       var t := TokKey(p, db.links.conns[k].account.GetOr(""));
                       t in db.links.owners ==> db.links.owners[t] == who)
  {
    RunKeeps(EMPTY, clock, run, latency);
  }

  // ------------------------------------------------------------ an erased user is gone for good

  /** No account, adoption, mark or session is the user's. */
  ghost predicate Forgotten(db: Db, user: Uid) {
    && user !in db.users
    && (forall iid :: iid in db.adopted ==> db.adopted[iid] != user)
    && (forall k :: k in db.links.conns ==> db.links.conns[k].marker != Some(user))
    && (forall s :: s in db.sessions ==> db.sessions[s].user != Some(user))
  }

  lemma EraseForgets(db: Db, user: Uid, now: real, latency: real)
    requires Inv(db, now, latency)
    ensures Forgotten(UserErased(db, user), user)
  {
  }

  lemma SignInForgets(db: Db, user: Uid, on: Option<Iid>, gone: Uid)
    requires Forgotten(db, gone) && user != gone
    ensures Forgotten(SignedIn(db, user, on), gone)
  {
  }

  lemma AdmitForgets(db: Db, token: string, iid: Iid, p: Provider, gone: Uid)
    requires Forgotten(db, gone)
    ensures Forgotten(Admitted(db, token, iid, p).1, gone)
  {
  }

  lemma EnsureForgets(l: Links, k: ConnKey, now: real, locked: real, reply: Reply, at: real,
                      k': ConnKey)
    ensures var d := EnsureFresh(l, k, now, locked, reply, at).1;
            k' in d.conns ==> k' in l.conns && d.conns[k'].marker == l.conns[k'].marker
  {
  }

  lemma StepForgets(db: Db, now: real, op: Op, gone: Uid)
    requires Forgotten(db, gone) && !(op.SignUp? && op.user == gone)
    ensures Forgotten(Step(db, now, op), gone)
  {
    match op
    case SignUp(user, on) => SignInForgets(db.(users := db.users + {user}), user, on, gone);
    case Login(user, token, on) =>
      if user in db.users {
        SignInForgets(db.(sessions := db.sessions[token := Session(None, Some(user))]), user, on, gone);
      }
    case Request(token, iid, p) => AdmitForgets(db, token, iid, p, gone);
    case Begin(token, _, iid, p) => AdmitForgets(db, token, iid, p, gone);
    case Ensure(token, k, locked, reply, at) =>
      AdmitForgets(db, token, k.iid, k.provider, gone);
      forall k' {
        EnsureForgets(Admitted(db, token, k.iid, k.provider).1.links, k, now, locked, reply, at, k');
      }
    case Disconnect(token, k) => AdmitForgets(db, token, k.iid, k.provider, gone);
    case _ =>
  }

  /** Nobody ever acts as an erased user again: only signing up under the same id could bring it back. */
  lemma {:induction false} ErasedForGood(db: Db, run: seq<Timed>, gone: Uid)
    requires Forgotten(db, gone)
    requires forall i :: 0 <= i < |run| ==> !(run[i].1.SignUp? && run[i].1.user == gone)
    ensures Forgotten(Run(db, run), gone)
    ensures forall token :: Actor(Run(db, run), token) != Some(gone)
    decreases |run|
  {
    if run != [] {
      StepForgets(db, run[0].0, run[0].1, gone);
      ErasedForGood(Step(db, run[0].0, run[0].1), run[1..], gone);
    }
  }

  // ------------------------------------------------------------ what each operation is for

  /** A session acts for the user it is marked with, if that user exists. */
  lemma ActorMeans(db: Db, token: string, user: Uid)
    ensures Actor(db, token) == Some(user)
       <==> token in db.sessions && db.sessions[token].user == Some(user) && user in db.users
  {
  }

  /** Logging in stores the session and adopts the installation; signing up adds the user, once. */
  lemma SigningIn(db: Db, now: real, user: Uid, token: string, iid: Iid)
    requires user != "" && iid != ""
    ensures var d := Step(db, now, Login(user, token, Some(iid)));
            && (user !in db.users ==> d == db)
            && (user in db.users ==>
                  && token in d.sessions && d.sessions[token].user == Some(user) && d.users == db.users
                  && (iid in db.installs ==> iid in d.adopted && d.adopted[iid] == user))
    ensures var d := Step(db, now, SignUp(user, Some(iid)));
            && user in d.users && (user in db.users ==> d == db)
            && (user !in db.users && iid in db.installs ==> iid in d.adopted && d.adopted[iid] == user)
  {
  }

  /** Whoever is signed in as a user can sign the installation out, and nobody else. */
  lemma SigningOut(db: Db, now: real, token: string, iid: Iid, k: ConnKey)
    ensures var d := Step(db, now, Logout(token, iid));
            var known := token in db.sessions && db.sessions[token].user.Some? && iid != "";
            k in d.links.conns <==> k in db.links.conns && !(known && k.iid == iid)
  {
  }

  /** Connecting, disconnecting and erasing do what they say, if the request is admitted. */
  lemma Requests(db: Db, now: real, token: string, k: ConnKey, txn: string)
    ensures var (ok, a) := Admitted(db, token, k.iid, k.provider);
            && (ok <==> Actor(db, token).Some? && Enforced(db, Actor(db, token).value, k.iid, k.provider).0)
            && (ok ==> k !in Step(db, now, Disconnect(token, k)).links.conns)
            && (!ok ==> Step(db, now, Disconnect(token, k)) == db)
            && (!ok ==> Step(db, now, Begin(token, txn, k.iid, k.provider)) == db)
            && (ok ==> txn in Step(db, now, Begin(token, txn, k.iid, k.provider)).txns
                       && Step(db, now, Begin(token, txn, k.iid, k.provider)).txns[txn] == k.iid)
  {
  }

  /** A request for a token that must be refreshed leaves the renewed pair in the account's row. */
  lemma Refreshing(db: Db, now: real, token: string, k: ConnKey, locked: real, pair: TokenPair, at: real)
    requires var (ok, a) := Admitted(db, token, k.iid, k.provider); ok && Refreshes(a.links, k, now, locked)
    ensures var d := Step(db, now, Ensure(token, k, locked, Renewed(pair), at)).links;
            && k in d.conns && d.conns[k].obtainedAt == at && d.conns[k].account.Some?
            && TokKey(k.provider, d.conns[k].account.value) in d.tokens
            && d.tokens[TokKey(k.provider, d.conns[k].account.value)] == pair
  {
  }

  lemma Disconnects(db: Db, now: real, token: string, k: ConnKey, q: ConnKey)
    requires q != k && q in db.links.conns
    ensures var d := Step(db, now, Disconnect(token, k)); q in d.links.conns && d.links.conns[q] == db.links.conns[q]
  {
  }

  /** A callback leaves the connection, its pair, and the adopting user as the owner of both. */
  lemma Connects(db: Db, now: real, k: ConnKey, account: string, pair: TokenPair, at: real)
    ensures var d, t := Step(db, now, Callback(k, account, pair, at)), TokKey(k.provider, account);
            && k in d.links.conns && d.links.conns[k].account == Some(account) && d.links.conns[k].obtainedAt == at
            && t in d.links.tokens && d.links.tokens[t] == pair
            && (k.iid in db.adopted && db.adopted[k.iid] != "" ==>
                  && d.links.conns[k].marker == Some(db.adopted[k.iid])
                  && (account != "" ==> t in d.links.owners && d.links.owners[t] == db.adopted[k.iid]))
            && (k.iid !in db.adopted ==> d.links.conns[k].marker == None && d.links.owners == db.links.owners)
  {
  }

  /** An erasure erases whom or what it names. */
  lemma Erasing(db: Db, now: real, token: string, iid: Iid, services: set<Provider>)
    ensures Actor(db, token) == None ==> Step(db, now, EraseUser(token)) == db
    ensures Actor(db, token).Some? ==> Step(db, now, EraseUser(token)) == UserErased(db, Actor(db, token).value)
    ensures Actor(db, token).Some? ==> Actor(db, token).value !in Step(db, now, EraseUser(token)).users
    ensures iid !in Step(db, now, EraseInstallation(iid, services)).installs
    ensures forall k :: k in Step(db, now, EraseInstallation(iid, services)).links.conns ==>
              k in db.links.conns && !(k.iid == iid && k.provider in services)
  {
  }

  // ------------------------------------------------------------ an account shared by two users

  const PAIR := TokenPair("access", "refresh", 3600, 0.0)

  /** Two users sign up, each on an installation of their own; both installations connect the same account. */
  const SHARING: seq<Timed> :=
    [(0.0, Bootstrap("i1")), (0.0, Bootstrap("i2")), (0.0, SignUp("u1", Some("i1"))), (0.0, SignUp("u2", Some("i2"))),
     (0.0, Callback(ConnKey("i2", "kick"), "a", PAIR, 0.0)), (0.0, Callback(ConnKey("i1", "kick"), "a", PAIR, 0.0))]

  const FIRST := ConnKey("i1", "kick")
  const SECOND := ConnKey("i2", "kick")
  const SHARED := TokKey("kick", "a")

  const ADOPTED := Db(Links(map[], map[], map[]), map["i1" := false, "i2" := false], map["i1" := "u1", "i2" := "u2"],
                      map[], map[], {"u1", "u2"})

  const CONNECTED := ADOPTED.(links := Links(map[SECOND := Entry(Some("a"), Some("u2"), 0.0)],
                                             map[SHARED := PAIR], map[SHARED := "u2"]))

  /** The tables they leave: the account's row is the user's who connected it last. */
  const SHARED_DB := ADOPTED.(links := Links(map[SECOND := Entry(Some("a"), Some("u2"), 0.0),
                                                 FIRST := Entry(Some("a"), Some("u1"), 0.0)],
                                             map[SHARED := PAIR], map[SHARED := "u1"]))

  /** The run, all of it at time zero, leaves these tables. */
  ghost predicate Leaves(run: seq<Timed>, db: Db) {
    TimelyRun(0.0, run, 0.0) && Clock(0.0, run) == 0.0 && Run(EMPTY, run) == db
  }

  lemma {:induction false} RunMore(clock: real, db: Db, run: seq<Timed>, op: Op)
    requires TimelyRun(clock, run, 0.0) && Clock(clock, run) == 0.0 && Timely(op, 0.0, 0.0, 0.0) && Ends(op, 0.0) == 0.0
    ensures TimelyRun(clock, run + [(0.0, op)], 0.0) && Clock(clock, run + [(0.0, op)]) == 0.0
    ensures Run(db, run + [(0.0, op)]) == Step(Run(db, run), 0.0, op)
    decreases |run|
  {
    var all := run + [(0.0, op)];
    if run == [] {
      assert all[1..] == [];
    } else {
      RunMore(Ends(run[0].1, run[0].0), Step(db, run[0].0, run[0].1), run[1..], op);
      assert all[1..] == run[1..] + [(0.0, op)];
    }
  }

  lemma {:induction false} LeavesNext(k: nat, db: Db, db': Db)
    requires k < |SHARING| && Leaves(SHARING[..k], db) && Step(db, 0.0, SHARING[k].1) == db'
    ensures Leaves(SHARING[..k + 1], db')
  {
    RunMore(0.0, EMPTY, SHARING[..k], SHARING[k].1);
    assert SHARING[..k + 1] == SHARING[..k] + [(0.0, SHARING[k].1)];
  }

  /** Signing up on a new installation adopts it. */
  lemma SignsUp(db: Db, user: Uid, iid: Iid)
    requires user != "" && iid != "" && user !in db.users && iid in db.installs
    requires db.links == Links(map[], map[], map[]) && db.sessions == map[]
    ensures Step(db, 0.0, SignUp(user, Some(iid)))
         == db.(users := db.users + {user}, adopted := db.adopted[iid := user])
  {
    var l := db.links;
    assert Foreign(l, user, iid) == {};
    DropNothing(l, EligibleRows(l));
    assert PairsOf(l.conns, iid) == {};
    assert OwnersSet(l, {}, user) == l.owners && MarkedConns(l.conns, iid, user) == l.conns;
    assert MarkedSessions(db.sessions, iid, user) == db.sessions;
  }

  lemma {:induction false} SignUpsLeave()
    ensures Leaves(SHARING[..4], ADOPTED)
  {
    var d1 := EMPTY.(installs := map["i1" := false]);
    var d2 := d1.(installs := map["i1" := false, "i2" := false]);
    var d3 := d2.(users := {"u1"}, adopted := map["i1" := "u1"]);
    LeavesNext(0, EMPTY, d1);
    LeavesNext(1, d1, d2);
    SignsUp(d2, "u1", "i1");
    LeavesNext(2, d2, d3);
    SignsUp(d3, "u2", "i2");
    LeavesNext(3, d3, ADOPTED);
  }

  lemma {:induction false} SharingLeaves()
    ensures Leaves(SHARING, SHARED_DB)
  {
    SignUpsLeave();
    LeavesNext(4, ADOPTED, CONNECTED);
    LeavesNext(5, CONNECTED, SHARED_DB);
    assert SHARING[..6] == SHARING;
  }

  /** After that run, a login of the second user locks the first one out. */
  lemma LockedOut()
    ensures Leaves(SHARING, SHARED_DB)
    ensures Enforced(SHARED_DB, "u1", "i1", "kick").0
    ensures !Enforced(LoggedIn(SHARED_DB, "u2", "i2"), "u1", "i1", "kick").0
  {
    SharingLeaves();
    assert SECOND in ConnsOf(SHARED_DB.links.conns, "i2") - Foreign(SHARED_DB.links, "u2", "i2");
    assert KeptFor(SHARED_DB.links, "u2", "i2", SHARED);
    SharedAccountTakenOver(SHARED_DB, "u2", "i2", "u1", FIRST);
  }

  /** And an erasure of the first one revokes the row's tokens, and keeps the row as the erased user's. */
  lemma OutlivesErasure()
    ensures Leaves(SHARING, SHARED_DB)
    ensures SHARED in Pending(SHARED_DB.links, Mine(SHARED_DB, "u1"))
    ensures var l := UserErased(SHARED_DB, "u1").links;
            SHARED in l.tokens && SHARED in l.owners && l.owners[SHARED] == "u1"
  {
    SharingLeaves();
    var r := Referencing(SHARED_DB.links.conns, SHARED);
    assert FIRST in r * Mine(SHARED_DB, "u1") && SECOND in r - Mine(SHARED_DB, "u1");
    RevokedYetKept(SHARED_DB, "u1", SHARED);
    OwnerOutlivesUser(SHARED_DB, "u1", SHARED);
  }
}
