/**
What each ownership operation of the backend does to the tables, as a function of the
whole tables, and what every sequence of such operations keeps.  Class `Backend` shows
that the step-by-step code computes these functions.
*/
module Ownership {
  import opened Options
  import opened Tables

  /** A row that the guarded deletions of the users module may remove. */
  predicate Eligible(t: TokKey) {
    KnownProvider(t.provider) && t.puid != ""
  }

  function EligibleRows(l: Links): set<TokKey> {
    set t | t in l.tokens && Eligible(t)
  }

  /** The rows `user` may take along: eligible, and owned by nobody else. */
  function ErasableRows(l: Links, user: Uid): set<TokKey> {
    set t | t in l.tokens && Eligible(t) && (t in l.owners ==> l.owners[t] == user)
  }

  /** The eligible rows that `ks` point at, with what they hold. */
  function Pending(l: Links, ks: set<ConnKey>): map<TokKey, TokenPair> {
    map t | t in l.tokens && Eligible(t) && Referencing(l.conns, t) * ks != {} :: l.tokens[t]
  }

  // ------------------------------------------------------------ erasing a user

  function Owned(db: Db, user: Uid): set<Iid> {
    set i | i in db.adopted && i in db.installs && db.adopted[i] == user
  }

  /** The user's connections: marked with the user, or unmarked in an installation of the user. */
  predicate IsMine(k: ConnKey, e: Entry, user: Uid, owned: set<Iid>) {
    e.marker == Some(user) || (e.marker == None && k.iid in owned)
  }

  function Mine(db: Db, user: Uid): set<ConnKey> {
    set k | k in db.links.conns && IsMine(k, db.links.conns[k], user, Owned(db, user))
  }

  /** Sessions of one of the installations `is`, or of the user. */
  function SessionsOf(ss: map<string, Session>, iids: set<Iid>): set<string> {
    set s | s in ss && ss[s].installation.Some? && ss[s].installation.value in iids
  }

  function SessionsFor(ss: map<string, Session>, user: Uid): set<string> {
    set s | s in ss && ss[s].user == Some(user)
  }

  function TxnsOf(txns: map<string, Iid>, iids: set<Iid>): set<string> {
    set t | t in txns && txns[t] in iids
  }

  function UserErased(db: Db, user: Uid): Db {
    var owned := Owned(db, user);
    Db(Drop(db.links, Mine(db, user), ErasableRows(db.links, user)),
       db.installs - owned, db.adopted - owned,
       db.sessions - (SessionsOf(db.sessions, owned) + SessionsFor(db.sessions, user)),
       db.txns - TxnsOf(db.txns, owned), db.users - {user})
  }

  datatype Counts = Counts(users: nat, installations: nat, sessions: nat, connections: nat, tokens: nat,
                           transactions: nat)

  const ZERO := Counts(0, 0, 0, 0, 0, 0)

  function UserErasedCounts(db: Db, user: Uid): Counts {
    var owned := Owned(db, user);
    Counts(if user in db.users then 1 else 0, |owned|,
           |SessionsOf(db.sessions, owned) + SessionsFor(db.sessions, user)|,
           |Mine(db, user)|, |Orphans(db.links, Mine(db, user), ErasableRows(db.links, user))|,
           |TxnsOf(db.txns, owned)|)
  }

  lemma NothingLeft(db: Db, user: Uid)
    ensures var d := UserErased(db, user);
            && Owned(d, user) == {} && Mine(d, user) == {}
            && SessionsFor(d.sessions, user) == {}
  {
  }

  lemma DropNothing(l: Links, may: set<TokKey>)
    ensures Orphans(l, {}, may) == {} && Drop(l, {}, may) == l
  {
    assert l.conns - {} == l.conns && l.tokens - {} == l.tokens && l.owners - {} == l.owners;
  }

  /** After an erasure nothing of the user is left, so erasing again changes and counts nothing. */
  lemma EraseTwice(db: Db, user: Uid)
    ensures UserErased(UserErased(db, user), user) == UserErased(db, user)
    ensures UserErasedCounts(UserErased(db, user), user) == ZERO
    ensures Pending(UserErased(db, user).links, Mine(UserErased(db, user), user)) == map[]
  {
    NothingLeft(db, user);
    ErasedOfNothing(UserErased(db, user), user);
  }

  lemma ErasedOfNothing(d: Db, user: Uid)
    requires user !in d.users && Owned(d, user) == {} && Mine(d, user) == {} && SessionsFor(d.sessions, user) == {}
    ensures UserErased(d, user) == d && UserErasedCounts(d, user) == ZERO && Pending(d.links, {}) == map[]
  {
    DropNothing(d.links, ErasableRows(d.links, user));
    assert SessionsOf(d.sessions, {}) == {} && TxnsOf(d.txns, {}) == {};
    assert d.installs - {} == d.installs && d.adopted - {} == d.adopted;
    assert d.sessions - {} == d.sessions && d.txns - {} == d.txns && d.users - {user} == d.users;
  }

  /**
  What belongs to somebody else is exactly as before: connections, their rows, installations,
  and sessions but for those of the erased user's installations.
  */
  lemma EraseSparesOthers(db: Db, user: Uid, other: Uid, k: ConnKey)
    requires other != user && k in db.links.conns && db.links.conns[k].marker == Some(other)
    ensures var d := UserErased(db, user).links;
            && k in d.conns && d.conns[k] == db.links.conns[k]
            && (Ref(k, d.conns[k]).Some? && Ref(k, d.conns[k]).value in db.links.tokens ==>
                  var t := Ref(k, d.conns[k]).value; t in d.tokens && d.tokens[t] == db.links.tokens[t])
    ensures forall i :: i in db.installs && i in db.adopted && db.adopted[i] == other ==>
              i in UserErased(db, user).installs && i in UserErased(db, user).adopted
    ensures forall s :: s in SessionsFor(db.sessions, other) ==>
              (s in UserErased(db, user).sessions <==> s !in SessionsOf(db.sessions, Owned(db, user)))
    ensures forall s :: s in UserErased(db, user).sessions ==> UserErased(db, user).sessions[s] == db.sessions[s]
  {
    DropSpares(db.links, Mine(db, user), ErasableRows(db.links, user), k);
  }

  /**
  The tokens of every row the user's connections point at are revoked remotely.  Such a
  row is nevertheless kept in the tables exactly when a surviving connection still uses it
  or it is recorded as another user's.
  */
  lemma RevokedYetKept(db: Db, user: Uid, t: TokKey)
    requires t in Pending(db.links, Mine(db, user))
    ensures t in UserErased(db, user).links.tokens
       <==> (exists k :: k in Referencing(db.links.conns, t) && k !in Mine(db, user))
            || (t in db.links.owners && db.links.owners[t] != user)
  {
    var r := Referencing(db.links.conns, t);
    if !(r <= Mine(db, user)) {
      var k :| k in r && k !in Mine(db, user);
    }
  }

  /**
  The owner recorded on a token row can outlive the user: it stays exactly on the rows of
  the user that no connection of the user points at, or that another one points at too, or
  that the guarded deletion passes over.
  */
  lemma OwnerOutlivesUser(db: Db, user: Uid, t: TokKey)
    requires OwnersHaveRows(db.links) && t in db.links.owners && db.links.owners[t] == user
    ensures var r := Referencing(db.links.conns, t);
            t in UserErased(db, user).links.owners
            <==> r * Mine(db, user) == {} || r - Mine(db, user) != {} || !Eligible(t)
  {
    var r := Referencing(db.links.conns, t);
    assert r == r * Mine(db, user) + (r - Mine(db, user));
  }

  // ------------------------------------------------------------ cleaning one installation

  /** Every connection of an installation. */
  function ConnsOf(conns: map<ConnKey, Entry>, iid: Iid): set<ConnKey> {
    set k | k in conns && k.iid == iid
  }

  /** The owner of a connection: its mark, else the recorded owner of its row. */
  function EntryOwner(l: Links, k: ConnKey): Option<Uid>
    requires k in l.conns
  {
    var e := l.conns[k];
    if e.marker.Some? then e.marker
    else
      match Ref(k, e)
      case None => None
      case Some(t) => if Eligible(t) && t in l.owners then Some(l.owners[t]) else None
  }

  /** The connections of the installation that belong to another user. */
  function Foreign(l: Links, user: Uid, iid: Iid): set<ConnKey> {
    set k | k in ConnsOf(l.conns, iid) && EntryOwner(l, k) != None && EntryOwner(l, k) != Some(user)
  }

  /** Guarded deletion of a set of connections. */
  function Cleaned(l: Links, ks: set<ConnKey>): Links {
    Drop(l, ks, EligibleRows(l))
  }

  /** The connections of the installation with one of the given providers. */
  function ConnsWith(conns: map<ConnKey, Entry>, iid: Iid, services: set<Provider>): set<ConnKey> {
    set k | k in ConnsOf(conns, iid) && k.provider in services
  }

  /** Erasing an installation goes through the registered providers; it does not filter the rows. */
  function InstallErased(db: Db, iid: Iid, services: set<Provider>): Db {
    Db(Drop(db.links, ConnsWith(db.links.conns, iid, services), db.links.tokens.Keys),
       db.installs - {iid}, db.adopted - {iid},
       db.sessions - SessionsOf(db.sessions, {iid}), db.txns - TxnsOf(db.txns, {iid}), db.users)
  }

  // ------------------------------------------------------------ adoption and login

  function MarkedSessions(ss: map<string, Session>, iid: Iid, user: Uid): map<string, Session> {
    map s | s in ss :: if ss[s].installation == Some(iid) then ss[s].(user := Some(user)) else ss[s]
  }

  function MarkedConns(conns: map<ConnKey, Entry>, iid: Iid, user: Uid): map<ConnKey, Entry> {
    map k | k in conns :: if k.iid == iid then conns[k].(marker := Some(user)) else conns[k]
  }

  /** The accounts of the installation's connections, with a non-empty id. */
  function PairsOf(conns: map<ConnKey, Entry>, iid: Iid): set<TokKey> {
    set k | k in ConnsOf(conns, iid) && conns[k].account.Some? && conns[k].account.value != ""
      :: TokKey(k.provider, conns[k].account.value)
  }

  /** Records `user` as the owner of those of the rows `ts` that exist. */
  function OwnersSet(l: Links, ts: set<TokKey>, user: Uid): map<TokKey, Uid> {
    l.owners + Given(ts * l.tokens.Keys, user)
  }

  function Given(ts: set<TokKey>, user: Uid): map<TokKey, Uid> {
    map t | t in ts :: user
  }

  function Adopted(db: Db, user: Uid, iid: Iid): Db {
    if iid !in db.installs then db
    else
      var l := db.links;
      db.(adopted := db.adopted[iid := user], sessions := MarkedSessions(db.sessions, iid, user),
          links := Links(MarkedConns(l.conns, iid, user), l.tokens, OwnersSet(l, PairsOf(l.conns, iid), user)))
  }

  /** Signing in on an installation: other users' links go first, then the installation is adopted. */
  function LoggedIn(db: Db, user: Uid, iid: Iid): Db {
    Adopted(db.(links := Cleaned(db.links, Foreign(db.links, user, iid))), user, iid)
  }

  /** The owner check of a Managed request; it also records the caller where no owner is known. */
  function Enforced(db: Db, user: Uid, iid: Iid, p: Provider): (bool, Db) {
    var k := ConnKey(iid, p);
    if iid in db.adopted && db.adopted[iid] != user then (false, db)
    else if k !in db.links.conns then (true, db)
    else
      var e := db.links.conns[k];
      if e.marker.Some? && e.marker.value != user then (false, db)
      else
        var t := TokKey(p, e.account.GetOr(""));
        var named := t.puid != "";
        if named && t in db.links.owners && db.links.owners[t] != user then (false, db)
        else
          var conns := if e.marker == None then db.links.conns[k := e.(marker := Some(user))] else db.links.conns;
          var owners := if named && t !in db.links.owners && t in db.links.tokens
                        then db.links.owners[t := user] else db.links.owners;
          (true, db.(links := Links(conns, db.links.tokens, owners)))
  }

  /** After a callback the connection and its row are recorded as the adopting user's. */
  function Stamped(db: Db, k: ConnKey, account: string): Db {
    if k.iid !in db.adopted || db.adopted[k.iid] == "" then db
    else
      var user, l, t := db.adopted[k.iid], db.links, TokKey(k.provider, account);
      db.(links := Links(if k in l.conns then l.conns[k := l.conns[k].(marker := Some(user))] else l.conns, l.tokens,
                         if account != "" && t in l.tokens then l.owners[t := user] else l.owners))
  }

  /** The first user served on a connection is the only one from then on; asking again changes nothing. */
  lemma FirstCallerOwns(db: Db, user: Uid, who: Uid, iid: Iid, p: Provider)
    requires ConnKey(iid, p) in db.links.conns && Enforced(db, user, iid, p).0
    ensures var d := Enforced(db, user, iid, p).1;
            Enforced(d, who, iid, p) == (who == user, d)
  {
    var d := Enforced(db, user, iid, p).1;
    var k := ConnKey(iid, p);
    assert d.links.conns[k].marker == Some(user) && d.adopted == db.adopted;
  }

  // ------------------------------------------------------------ what a login guarantees

  /** The connections left on the installation are those owned by the user or by nobody, now marked and owned. */
  lemma LoginKeepsOwn(db: Db, user: Uid, iid: Iid)
    requires iid in db.installs
    ensures var l, d := db.links, LoggedIn(db, user, iid).links;
            && ConnsOf(d.conns, iid) == ConnsOf(l.conns, iid) - Foreign(l, user, iid)
            && (forall k :: k in ConnsOf(d.conns, iid) ==>
                  && d.conns[k] == l.conns[k].(marker := Some(user))
                  && (Linked(l) && l.conns[k].account.Some? && l.conns[k].account.value != "" ==>
                        var t := TokKey(k.provider, l.conns[k].account.value);
                        t in d.tokens && d.tokens[t] == l.tokens[t] && t in d.owners && d.owners[t] == user))
  {
    var l := db.links;
    var f := Foreign(l, user, iid);
    var c := Cleaned(l, f);
    var d := LoggedIn(db, user, iid).links;
    forall k | k in ConnsOf(d.conns, iid)
      ensures d.conns[k] == l.conns[k].(marker := Some(user))
      ensures Linked(l) && l.conns[k].account.Some? && l.conns[k].account.value != "" ==>
                var t := TokKey(k.provider, l.conns[k].account.value);
                t in d.tokens && d.tokens[t] == l.tokens[t] && t in d.owners && d.owners[t] == user
    {
      assert k in c.conns && k !in f;
      DropSpares(l, f, EligibleRows(l), k);
      if Linked(l) && l.conns[k].account.Some? && l.conns[k].account.value != "" {
        var t := TokKey(k.provider, l.conns[k].account.value);
        assert k in ConnsOf(c.conns, iid);
        assert t in PairsOf(c.conns, iid);
      }
    }
  }

  /** Other installations keep their connections and the rows these point at. */
  lemma LoginSparesOthers(db: Db, user: Uid, iid: Iid, k: ConnKey)
    requires k in db.links.conns && k.iid != iid
    ensures var l, d := db.links, LoggedIn(db, user, iid).links;
            && k in d.conns && d.conns[k] == l.conns[k]
            && (Ref(k, l.conns[k]).Some? && Ref(k, l.conns[k]).value in l.tokens ==>
                  var t := Ref(k, l.conns[k]).value; t in d.tokens && d.tokens[t] == l.tokens[t])
  {
    DropSpares(db.links, Foreign(db.links, user, iid), EligibleRows(db.links), k);
  }

  /** From then on the installation serves this user and no other, for every provider. */
  lemma LoginDecidesAccess(db: Db, user: Uid, iid: Iid, who: Uid, p: Provider)
    requires iid in db.installs && OwnersHaveRows(db.links)
    ensures Enforced(LoggedIn(db, user, iid), who, iid, p).0 <==> who == user
  {
    var l := db.links;
    var c := Cleaned(l, Foreign(l, user, iid));
    var d := LoggedIn(db, user, iid);
    var k := ConnKey(iid, p);
    if who == user && k in d.links.conns {
      LoginKeepsOwn(db, user, iid);
      assert k in ConnsOf(d.links.conns, iid);
      assert d.links.conns[k].marker == Some(user);
      var t := TokKey(p, d.links.conns[k].account.GetOr(""));
      if t.puid != "" && t in d.links.owners {
        assert k in ConnsOf(c.conns, iid) && c.conns[k].account == Some(t.puid);
        assert t in PairsOf(c.conns, iid);
        DropKeepsLinked(l, Foreign(l, user, iid), EligibleRows(l));
        assert t in c.tokens;
      }
    }
  }

  /** A connection that a login keeps on its installation, for the account of row `t`. */
  ghost predicate KeptFor(l: Links, user: Uid, iid: Iid, t: TokKey) {
    exists q :: q in ConnsOf(l.conns, iid) - Foreign(l, user, iid) && Ref(q, l.conns[q]) == Some(t)
  }

  lemma PairsKept(l: Links, user: Uid, iid: Iid, t: TokKey)
    ensures t in PairsOf(Cleaned(l, Foreign(l, user, iid)).conns, iid) <==> KeptFor(l, user, iid, t) && t.puid != ""
  {
    var f := Foreign(l, user, iid);
    var c := Cleaned(l, f);
    if t in PairsOf(c.conns, iid) {
      var q :| q in ConnsOf(c.conns, iid) && c.conns[q].account.Some? && c.conns[q].account.value != ""
               && TokKey(q.provider, c.conns[q].account.value) == t;
      assert q in ConnsOf(l.conns, iid) - f && Ref(q, l.conns[q]) == Some(t);
    }
    if KeptFor(l, user, iid, t) && t.puid != "" {
      var q :| q in ConnsOf(l.conns, iid) - f && Ref(q, l.conns[q]) == Some(t);
      assert q in ConnsOf(c.conns, iid) && c.conns[q] == l.conns[q];
    }
  }

  /**
  A login takes over the token rows of the accounts it keeps.  A user served on another
  installation is therefore refused afterwards exactly when that connection shares its
  account, and an existing token row, with a connection the login kept.
  */
  lemma SharedAccountTakenOver(db: Db, user: Uid, iid: Iid, other: Uid, k: ConnKey)
    requires iid in db.installs && other != user && k.iid != iid && k in db.links.conns
    requires Enforced(db, other, k.iid, k.provider).0 && OwnersHaveRows(db.links)
    ensures var l := db.links;
            var t := TokKey(k.provider, l.conns[k].account.GetOr(""));
            !Enforced(LoggedIn(db, user, iid), other, k.iid, k.provider).0
            <==> t.puid != "" && t in l.tokens && KeptFor(l, user, iid, t)
  {
    var l := db.links;
    var t := TokKey(k.provider, l.conns[k].account.GetOr(""));
    DropSpares(l, Foreign(l, user, iid), EligibleRows(l), k);
    PairsKept(l, user, iid, t);
    assert LoggedIn(db, user, iid).links.conns[k] == l.conns[k];
  }
}
