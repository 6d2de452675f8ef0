/**
What the ownership operations leave behind, row by row and read off the stored fields:
which connections, token rows, owners, sessions, transactions, installations and users are
there afterwards, and that the reported counts are the differences in table size.
*/
module OwnershipFacts {
  import opened Options
  import opened Tables
  import opened Ownership

  /** The connection is for the account of the row. */
  predicate PointsAt(k: ConnKey, e: Entry, t: TokKey) {
    e.account == Some(t.puid) && k.provider == t.provider
  }

  lemma ReferencingMeans(conns: map<ConnKey, Entry>, t: TokKey, k: ConnKey)
    ensures k in Referencing(conns, t) <==> k in conns && PointsAt(k, conns[k], t)
  {
  }

  /** Rows of the four providers, with an account id, are those a user's clean-up may remove. */
  lemma EligibleMeans(t: TokKey)
    ensures Eligible(t)
       <==> t.puid != "" && (t.provider == "twitch" || t.provider == "youtube" || t.provider == "kick"
                             || t.provider == "facebook")
  {
  }

  /** A row goes with a set of connections if it may, one of them points at it, and nothing else does. */
  ghost predicate GoesWith(l: Links, ks: set<ConnKey>, may: set<TokKey>, t: TokKey) {
    && t in may
    && (exists k :: k in l.conns && PointsAt(k, l.conns[k], t) && k in ks)
    && (forall k :: k in l.conns && PointsAt(k, l.conns[k], t) ==> k in ks)
  }

  /** Exactly the given connections go, and exactly the rows that go with them, with their owners. */
  lemma DropMeans(l: Links, ks: set<ConnKey>, may: set<TokKey>)
    ensures var d := Drop(l, ks, may);
            && (forall k :: k in d.conns <==> k in l.conns && k !in ks)
            && (forall k :: k in d.conns ==> d.conns[k] == l.conns[k])
            && (forall t :: t in d.tokens <==> t in l.tokens && !GoesWith(l, ks, may, t))
            && (forall t :: t in d.tokens ==> d.tokens[t] == l.tokens[t])
            && (forall t :: t in d.owners <==> t in l.owners && !(t in l.tokens && GoesWith(l, ks, may, t)))
            && (forall t :: t in d.owners ==> d.owners[t] == l.owners[t])
  {
    forall t | t in l.tokens
      ensures t in Orphans(l, ks, may) <==> GoesWith(l, ks, may, t)
    {
      OrphanMeans(l, ks, may, t);
    }
  }

  lemma OrphanMeans(l: Links, ks: set<ConnKey>, may: set<TokKey>, t: TokKey)
    requires t in l.tokens
    ensures t in Orphans(l, ks, may) <==> GoesWith(l, ks, may, t)
  {
    var r := Referencing(l.conns, t);
    forall k
      ensures k in r <==> k in l.conns && PointsAt(k, l.conns[k], t)
    {
      ReferencingMeans(l.conns, t, k);
    }
    if k :| k in l.conns && PointsAt(k, l.conns[k], t) && k in ks {
      assert k in r * ks;
    }
  }

  lemma DropSizes(l: Links, ks: set<ConnKey>, may: set<TokKey>)
    requires ks <= l.conns.Keys
    ensures var d := Drop(l, ks, may);
            |ks| == |l.conns| - |d.conns| && |Orphans(l, ks, may)| == |l.tokens| - |d.tokens|
  {
    SizeWithout(l.conns, ks);
    SizeWithout(l.tokens, Orphans(l, ks, may));
  }

  // ------------------------------------------------------------ erasing a user

  /** The installation is there and adopted by the user. */
  predicate Owns(db: Db, user: Uid, iid: Iid) {
    iid in db.installs && iid in db.adopted && db.adopted[iid] == user
  }

  /** A connection goes that is marked as the user's, or is unmarked on an installation of the user. */
  lemma ErasedConns(db: Db, user: Uid, k: ConnKey)
    ensures var l, d := db.links, UserErased(db, user).links;
            && (k in d.conns <==> k in l.conns && l.conns[k].marker != Some(user)
                                  && !(l.conns[k].marker == None && Owns(db, user, k.iid)))
            && (k in d.conns ==> d.conns[k] == l.conns[k])
  {
  }

  /**
  A token row goes if all its connections do, of which there is one, it is of a known
  provider and account, and it is not recorded as somebody else's.
  */
  lemma ErasedRows(db: Db, user: Uid, t: TokKey)
    requires t in db.links.tokens
    ensures var l, d := db.links, UserErased(db, user).links;
            && (t !in d.tokens <==>
                  && Eligible(t) && (t in l.owners ==> l.owners[t] == user)
                  && (exists k :: k in l.conns && PointsAt(k, l.conns[k], t))
                  && (forall k :: k in l.conns && PointsAt(k, l.conns[k], t) ==> k !in d.conns))
            && (t in d.tokens ==> d.tokens[t] == l.tokens[t])
            && (t in d.owners <==> t in l.owners && t in d.tokens) && (t in d.owners ==> d.owners[t] == l.owners[t])
  {
    var l, d := db.links, UserErased(db, user).links;
    DropMeans(l, Mine(db, user), ErasableRows(l, user));
    assert t in ErasableRows(l, user) <==> Eligible(t) && (t in l.owners ==> l.owners[t] == user);
    assert forall k :: k in l.conns ==> (k in Mine(db, user) <==> k !in d.conns);
  }

  /** The user's sessions go, and those of the user's installations; so do these, their transactions, and the user. */
  lemma ErasedRest(db: Db, user: Uid)
    ensures var d := UserErased(db, user);
            && (forall s :: s in d.sessions <==>
                  && s in db.sessions && db.sessions[s].user != Some(user)
                  && !(db.sessions[s].installation.Some? && Owns(db, user, db.sessions[s].installation.value)))
            && (forall s :: s in d.sessions ==> d.sessions[s] == db.sessions[s])
            && (forall x :: x in d.txns <==> x in db.txns && !Owns(db, user, db.txns[x]))
            && (forall x :: x in d.txns ==> d.txns[x] == db.txns[x])
            && (forall i :: i in d.installs <==> i in db.installs && !Owns(db, user, i))
            && (forall i :: i in d.installs ==> d.installs[i] == db.installs[i])
            && (forall i :: i in d.adopted <==> i in db.adopted && !Owns(db, user, i))
            && (forall i :: i in d.adopted ==> d.adopted[i] == db.adopted[i])
            && (forall u :: u in d.users <==> u in db.users && u != user)
  {
  }

  /** Each count is what its table lost. */
  lemma ErasedCounts(db: Db, user: Uid)
    ensures var d, n := UserErased(db, user), UserErasedCounts(db, user);
            && n.connections == |db.links.conns| - |d.links.conns| && n.tokens == |db.links.tokens| - |d.links.tokens|
            && n.sessions == |db.sessions| - |d.sessions| && n.transactions == |db.txns| - |d.txns|
            && n.installations == |db.installs| - |d.installs| && n.users == |db.users| - |d.users|
  {
    var owned := Owned(db, user);
    DropSizes(db.links, Mine(db, user), ErasableRows(db.links, user));
    SizeWithout(db.sessions, SessionsOf(db.sessions, owned) + SessionsFor(db.sessions, user));
    SizeWithout(db.txns, TxnsOf(db.txns, owned));
    SizeWithout(db.installs, owned);
  }

  /** The rows to revoke: those of a known provider and account that one of these connections points at. */
  lemma PendingMeans(l: Links, ks: set<ConnKey>, t: TokKey)
    ensures var p := Pending(l, ks);
            && (t in p <==> t in l.tokens && Eligible(t)
                            && exists k :: k in l.conns && PointsAt(k, l.conns[k], t) && k in ks)
            && (t in p ==> p[t] == l.tokens[t])
  {
    var r := Referencing(l.conns, t);
    if k :| k in l.conns && PointsAt(k, l.conns[k], t) && k in ks {
      assert k in r * ks;
    }
    if r * ks != {} {
      var k :| k in r * ks;
      assert k in l.conns && PointsAt(k, l.conns[k], t) && k in ks;
    }
  }

  // ------------------------------------------------------------ erasing an installation, and signing out

  /** The rows that go with all their connections, once those of `ks` that exist have gone from `l`, leaving `d`. */
  ghost predicate RowsGone(l: Links, d: Links, t: TokKey) {
    && (exists k :: k in l.conns && PointsAt(k, l.conns[k], t))
    && (forall k :: k in l.conns && PointsAt(k, l.conns[k], t) ==> k !in d.conns)
  }

  lemma DroppedRows(l: Links, ks: set<ConnKey>, may: set<TokKey>, t: TokKey)
    requires t in l.tokens
    ensures var d := Drop(l, ks, may);
            && (t !in d.tokens <==> t in may && RowsGone(l, d, t))
            && (t in d.tokens ==> d.tokens[t] == l.tokens[t])
            && (t in d.owners <==> t in l.owners && t in d.tokens) && (t in d.owners ==> d.owners[t] == l.owners[t])
  {
    OrphanMeans(l, ks, may, t);
    var d := Drop(l, ks, may);
    assert forall k :: k in l.conns ==> (k in ks <==> k !in d.conns);
  }

  /** The installation's connections at the given providers go, and the rows that lose all theirs. */
  lemma InstallErasedConns(db: Db, iid: Iid, services: set<Provider>, k: ConnKey)
    ensures var l, d := db.links, InstallErased(db, iid, services).links;
            && (k in d.conns <==> k in l.conns && !(k.iid == iid && k.provider in services))
            && (k in d.conns ==> d.conns[k] == l.conns[k])
  {
  }

  lemma InstallErasedRows(db: Db, iid: Iid, services: set<Provider>, t: TokKey)
    requires t in db.links.tokens
    ensures var l, d := db.links, InstallErased(db, iid, services).links;
            && (t !in d.tokens <==> RowsGone(l, d, t)) && (t in d.tokens ==> d.tokens[t] == l.tokens[t])
            && (t in d.owners <==> t in l.owners && t in d.tokens) && (t in d.owners ==> d.owners[t] == l.owners[t])
  {
    DroppedRows(db.links, ConnsWith(db.links.conns, iid, services), db.links.tokens.Keys, t);
  }

  /** So do its sessions, its transactions and itself, and nothing else does. */
  lemma InstallErasedRest(db: Db, iid: Iid, services: set<Provider>)
    ensures var d := InstallErased(db, iid, services);
            && (forall s :: s in d.sessions <==> s in db.sessions && db.sessions[s].installation != Some(iid))
            && (forall s :: s in d.sessions ==> d.sessions[s] == db.sessions[s])
            && (forall x :: x in d.txns <==> x in db.txns && db.txns[x] != iid)
            && (forall x :: x in d.txns ==> d.txns[x] == db.txns[x])
            && (forall i :: i in d.installs <==> i in db.installs && i != iid)
            && (forall i :: i in d.installs ==> d.installs[i] == db.installs[i])
            && (forall i :: i in d.adopted <==> i in db.adopted && i != iid)
            && (forall i :: i in d.adopted ==> d.adopted[i] == db.adopted[i]) && d.users == db.users
  {
  }

  lemma InstallErasedSizes(db: Db, iid: Iid, services: set<Provider>)
    ensures var l, d := db.links, InstallErased(db, iid, services);
            var ks := ConnsWith(l.conns, iid, services);
            && |ks| == |l.conns| - |d.links.conns| && |Orphans(l, ks, l.tokens.Keys)| == |l.tokens| - |d.links.tokens|
            && |SessionsOf(db.sessions, {iid})| == |db.sessions| - |d.sessions|
            && |TxnsOf(db.txns, {iid})| == |db.txns| - |d.txns|
  {
    DropSizes(db.links, ConnsWith(db.links.conns, iid, services), db.links.tokens.Keys);
    SizeWithout(db.sessions, SessionsOf(db.sessions, {iid}));
    SizeWithout(db.txns, TxnsOf(db.txns, {iid}));
  }

  /** Signing out leaves the installation no connection, and the others theirs. */
  lemma SignedOutConns(l: Links, iid: Iid, k: ConnKey)
    ensures var d := Cleaned(l, ConnsOf(l.conns, iid));
            (k in d.conns <==> k in l.conns && k.iid != iid) && (k in d.conns ==> d.conns[k] == l.conns[k])
  {
  }

  lemma SignedOutRows(l: Links, iid: Iid, t: TokKey)
    requires t in l.tokens
    ensures var d := Cleaned(l, ConnsOf(l.conns, iid));
            && (t !in d.tokens <==> Eligible(t) && RowsGone(l, d, t)) && (t in d.tokens ==> d.tokens[t] == l.tokens[t])
            && (t in d.owners <==> t in l.owners && t in d.tokens) && (t in d.owners ==> d.owners[t] == l.owners[t])
  {
    DroppedRows(l, ConnsOf(l.conns, iid), EligibleRows(l), t);
  }

  /** The counts of a guarded clean-up are what the tables lost. */
  lemma CleanedSizes(l: Links, ks: set<ConnKey>)
    requires ks <= l.conns.Keys
    ensures var d := Cleaned(l, ks);
            |ks| == |l.conns| - |d.conns| && |Orphans(l, ks, EligibleRows(l))| == |l.tokens| - |d.tokens|
  {
    DropSizes(l, ks, EligibleRows(l));
  }

  // ------------------------------------------------------------ adopting and logging in

  /** The installation has a connection for the account of the row. */
  ghost predicate Connects(l: Links, iid: Iid, t: TokKey) {
    t.puid != "" && exists k :: k in l.conns && k.iid == iid && PointsAt(k, l.conns[k], t)
  }

  /** Adoption marks the installation, its sessions and its connections, and changes nothing else of them. */
  lemma AdoptedMarks(db: Db, user: Uid, iid: Iid)
    requires iid in db.installs
    ensures var d := Adopted(db, user, iid);
            && (forall i :: i in d.adopted <==> i in db.adopted || i == iid)
            && (forall i :: i in d.adopted ==> d.adopted[i] == if i == iid then user else db.adopted[i])
            && d.sessions.Keys == db.sessions.Keys
            && (forall s :: s in d.sessions ==>
                  && d.sessions[s].installation == db.sessions[s].installation
                  && d.sessions[s].user
                     == if db.sessions[s].installation == Some(iid) then Some(user) else db.sessions[s].user)
            && d.installs == db.installs && d.txns == db.txns && d.users == db.users
  {
  }

  lemma AdoptedConns(db: Db, user: Uid, iid: Iid, k: ConnKey)
    requires iid in db.installs
    ensures var l, d := db.links, Adopted(db, user, iid).links;
            && (k in d.conns <==> k in l.conns)
            && (k in d.conns ==>
                  && d.conns[k].account == l.conns[k].account && d.conns[k].obtainedAt == l.conns[k].obtainedAt
                  && d.conns[k].marker == if k.iid == iid then Some(user) else l.conns[k].marker)
  {
  }

  /** The user owns the rows of the installation's accounts; the others keep whom they had. */
  lemma AdoptedRows(db: Db, user: Uid, iid: Iid, t: TokKey)
    requires iid in db.installs
    ensures var l, d := db.links, Adopted(db, user, iid).links;
            && d.tokens == l.tokens
            && if t in l.tokens && Connects(l, iid, t) then t in d.owners && d.owners[t] == user
               else (t in d.owners <==> t in l.owners) && (t in d.owners ==> d.owners[t] == l.owners[t])
  {
    PairsMean(db.links, iid, t);
  }

  lemma PairsMean(l: Links, iid: Iid, t: TokKey)
    ensures t in PairsOf(l.conns, iid) <==> Connects(l, iid, t)
  {
    if Connects(l, iid, t) {
      var k :| k in l.conns && k.iid == iid && PointsAt(k, l.conns[k], t);
      assert k in ConnsOf(l.conns, iid);
    }
  }

  lemma AdoptedNot(db: Db, user: Uid, iid: Iid)
    requires iid !in db.installs
    ensures Adopted(db, user, iid) == db
  {
  }

  /** Nobody but the user is the owner of the connection: by its mark, or without one by its row. */
  predicate NobodyElses(l: Links, k: ConnKey, user: Uid)
    requires k in l.conns
  {
    var e := l.conns[k];
    || e.marker == Some(user)
    || (e.marker == None
        && (e.account.Some? ==>
              var t := TokKey(k.provider, e.account.value);
              Eligible(t) && t in l.owners ==> l.owners[t] == user))
  }

  /** A login keeps those connections of the installation that are nobody else's, and all of other installations. */
  lemma SurvivesLogin(db: Db, user: Uid, iid: Iid, k: ConnKey)
    requires iid in db.installs && k in db.links.conns
    ensures k in LoggedIn(db, user, iid).links.conns <==> k.iid == iid ==> NobodyElses(db.links, k, user)
  {
  }

  /** It deletes the rows of known providers and accounts that lose all their connections. */
  lemma LoginRows(db: Db, user: Uid, iid: Iid, t: TokKey)
    requires iid in db.installs && t in db.links.tokens
    ensures var l, d := db.links, LoggedIn(db, user, iid).links;
            (t !in d.tokens <==> Eligible(t) && RowsGone(l, d, t)) && (t in d.tokens ==> d.tokens[t] == l.tokens[t])
  {
    DroppedRows(db.links, Foreign(db.links, user, iid), EligibleRows(db.links), t);
  }

  // ------------------------------------------------------------ requests and callbacks

  /** No record names anybody but the user: not the adoption, not the connection's mark, not the row's owner. */
  predicate Admissible(db: Db, user: Uid, iid: Iid, p: Provider) {
    var k := ConnKey(iid, p);
    && (iid in db.adopted ==> db.adopted[iid] == user)
    && (k in db.links.conns ==>
          var e := db.links.conns[k];
          && (e.marker.Some? ==> e.marker.value == user)
          && (e.account.Some? && e.account.value != "" && TokKey(p, e.account.value) in db.links.owners
              ==> db.links.owners[TokKey(p, e.account.value)] == user))
  }

  /** A request is served exactly if so; then the user is recorded with the connection and its row, and nowhere else. */
  lemma EnforcedMeans(db: Db, user: Uid, iid: Iid, p: Provider)
    ensures var (ok, d) := Enforced(db, user, iid, p);
            && (ok <==> Admissible(db, user, iid, p))
            && d == db.(links := d.links) && d.links.tokens == db.links.tokens && (!ok ==> d == db)
            && (forall k :: k in d.links.conns <==> k in db.links.conns)
            && (forall k :: k in d.links.conns ==>
                  d.links.conns[k] == if ok && k == ConnKey(iid, p) then db.links.conns[k].(marker := Some(user))
                                      else db.links.conns[k])
  {
  }

  lemma EnforcedOwners(db: Db, user: Uid, iid: Iid, p: Provider, t: TokKey)
    ensures var (ok, d) := Enforced(db, user, iid, p);
            var k := ConnKey(iid, p);
            if ok && k in db.links.conns && PointsAt(k, db.links.conns[k], t) && t.puid != "" && t in db.links.tokens
            then t in d.links.owners && d.links.owners[t] == user
            else (t in d.links.owners <==> t in db.links.owners)
                 && (t in d.links.owners ==> d.links.owners[t] == db.links.owners[t])
  {
  }

  /** After a callback on an adopted installation the connection is marked, and the row owned, by its user. */
  lemma StampedMeans(db: Db, k: ConnKey, account: string, q: ConnKey, t: TokKey)
    ensures var d := Stamped(db, k, account);
            var stamps := k.iid in db.adopted && db.adopted[k.iid] != "";
            && d == db.(links := d.links) && d.links.tokens == db.links.tokens
            && (q in d.links.conns <==> q in db.links.conns)
            && (q in d.links.conns ==>
                  d.links.conns[q] == if stamps && q == k then db.links.conns[q].(marker := Some(db.adopted[k.iid]))
                                      else db.links.conns[q])
            && if stamps && t == TokKey(k.provider, account) && account != "" && t in db.links.tokens
               then t in d.links.owners && d.links.owners[t] == db.adopted[k.iid]
               else (t in d.links.owners <==> t in db.links.owners)
                    && (t in d.links.owners ==> d.links.owners[t] == db.links.owners[t])
  {
  }
}
