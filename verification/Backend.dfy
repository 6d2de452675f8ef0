/**
The backend's ownership operations as the code performs them: row by row, with running
counts, on tables updated in place.  Each is tied to its set-level meaning in `Ownership`.
The remote revocations that follow are the caller's, from the returned `pending` rows.
*/
module Backend {
  import opened Options
  import opened Tables
  import opened Ownership

  /** The rows a guarded deletion may remove: on behalf of a user, none recorded as another's. */
  function Deletable(l: Links, user: Option<Uid>): set<TokKey> {
    match user
    case None => EligibleRows(l)
    case Some(u) => ErasableRows(l, u)
  }

  // ------------------------------------------------------------ one deletion at a time

  /** Only rows that exist matter to a deletion. */
  lemma OnlyExistingRows(l: Links, ks: set<ConnKey>, may: set<TokKey>, may': set<TokKey>)
    requires forall t :: t in l.tokens ==> (t in may <==> t in may')
    ensures Orphans(l, ks, may) == Orphans(l, ks, may') && Drop(l, ks, may) == Drop(l, ks, may')
  {
  }

  /** What may be deleted does not change while the deletions go on, except that rows disappear. */
  lemma DeletableLater(l: Links, done: set<ConnKey>, user: Option<Uid>, t: TokKey)
    ensures var d := Drop(l, done, Deletable(l, user));
            t in d.tokens ==> (t in Deletable(d, user) <==> t in Deletable(l, user))
  {
  }

  /** A deletion of one connection after others, both guarded, is one guarded deletion of all. */
  lemma GuardedOneMore(l: Links, done: set<ConnKey>, k: ConnKey, user: Option<Uid>)
    requires k !in done
    ensures var may := Deletable(l, user);
            var d := Drop(l, done, may);
            && Drop(d, {k}, Deletable(d, user)) == Drop(l, done + {k}, may)
            && |Orphans(l, done + {k}, may)| == |Orphans(l, done, may)| + |Orphans(d, {k}, Deletable(d, user))|
  {
    var may := Deletable(l, user);
    var d := Drop(l, done, may);
    forall t | t in d.tokens
      ensures t in Deletable(d, user) <==> t in may
    {
      DeletableLater(l, done, user, t);
    }
    OnlyExistingRows(d, {k}, Deletable(d, user), may);
    DropOneMore(l, done, k, may);
  }

  /** Deleting one connection orphans at most the row it points at. */
  lemma SingleOrphan(l: Links, k: ConnKey, may: set<TokKey>)
    requires k in l.conns
    ensures Orphans(l, {k}, may)
         == match Ref(k, l.conns[k])
            case None => {}
            case Some(t) => if t in l.tokens && t in may && Referencing(l.conns - {k}, t) == {} then {t} else {}
  {
    forall t
      ensures t in Orphans(l, {k}, may)
         <==> Ref(k, l.conns[k]) == Some(t) && t in l.tokens && t in may && Referencing(l.conns - {k}, t) == {}
    {
      ReferencingLess(l, {k}, t);
      var r := Referencing(l.conns, t);
      if k in r {
        assert k in r * {k};
      } else {
        assert r * {k} == {};
      }
    }
  }

  /** The pending rows after one more deletion, the earlier ones having left that row in place. */
  lemma PendingOneMore(l: Links, done: set<ConnKey>, k: ConnKey, may: set<TokKey>)
    requires k in l.conns && k !in done
    ensures var d := Drop(l, done, may);
            k in d.conns && d.conns[k] == l.conns[k]
            && Pending(l, done + {k})
            == match Ref(k, l.conns[k])
               case None => Pending(l, done)
               case Some(t) => if t in d.tokens && Eligible(t) then Pending(l, done)[t := d.tokens[t]]
                               else Pending(l, done)
  {
    DropSpares(l, done, may, k);
    forall t
      ensures Referencing(l.conns, t) * (done + {k}) != {}
         <==> Referencing(l.conns, t) * done != {} || Ref(k, l.conns[k]) == Some(t)
    {
      var r := Referencing(l.conns, t);
      if k in r {
        assert k in r * (done + {k});
      } else {
        assert r * (done + {k}) == r * done;
      }
    }
  }

  /** Tables and tallies after a series of guarded deletions. */
  datatype Sweep = Sweep(left: Links, conns: nat, toks: nat, pending: map<TokKey, TokenPair>)

  /** What deleting the connections `ks` from `l` comes to. */
  function Swept(l: Links, ks: set<ConnKey>, user: Option<Uid>): Sweep {
    Sweep(Drop(l, ks, Deletable(l, user)), |ks|, |Orphans(l, ks, Deletable(l, user))|, Pending(l, ks))
  }

  lemma NothingSwept(l: Links, user: Option<Uid>)
    ensures Swept(l, {}, user) == Sweep(l, 0, 0, map[])
  {
    DropNothing(l, Deletable(l, user));
  }

  class Stores {
    var db: Db

    constructor (db: Db)
      ensures this.db == db
    {
      this.db := db;
    }

    // -------------------------------------------------------- single rows

    method DeleteConnection(k: ConnKey)
      modifies this
      ensures db == old(db).(links := old(db).links.(conns := old(db).links.conns - {k}))
    {
      db := db.(links := db.links.(conns := db.links.conns - {k}));
    }

    method DeleteToken(t: TokKey)
      modifies this
      ensures db == old(db).(links := Without(old(db).links, {}, {t}))
    {
      assert db.links.conns - {} == db.links.conns;
      db := db.(links := db.links.(tokens := db.links.tokens - {t}, owners := db.links.owners - {t}));
    }

    /**
    Deletes one connection; its token row goes with it only if nothing else references it
    (and, on behalf of a user, if it is not recorded as another user's).
    */
    method DeleteGuarded(k: ConnKey, user: Option<Uid>, pending: map<TokKey, TokenPair>)
      returns (conns: nat, toks: nat, pending': map<TokKey, TokenPair>)
      modifies this
      ensures k !in old(db).links.conns ==> db == old(db) && conns == 0 && toks == 0 && pending' == pending
      ensures k in old(db).links.conns ==>
                var l := old(db).links;
                && db == old(db).(links := Drop(l, {k}, Deletable(l, user)))
                && conns == 1 && toks == |Orphans(l, {k}, Deletable(l, user))|
                && pending' == match Ref(k, l.conns[k])
                               case None => pending
                               case Some(t) =>
                                 if t in l.tokens && Eligible(t) && t !in pending then pending[t := l.tokens[t]]
                                 else pending
    {
      var l := db.links;
      conns, toks, pending' := 0, 0, pending;
      if k !in l.conns {
        return;
      }
      var ref := Ref(k, l.conns[k]);
      SingleOrphan(l, k, Deletable(l, user));
      DeleteConnection(k);
      conns := 1;
      if ref.Some? && Eligible(ref.value) && ref.value in l.tokens {
        var t := ref.value;
        var refs := Referencing(db.links.conns, t);
        var ownerOk := user == None || t !in l.owners || user == Some(l.owners[t]);
        if refs == {} && ownerOk {
          DeleteToken(t);
          toks := 1;
        }
        if t !in pending {
          pending' := pending[t := l.tokens[t]];
        }
      }
      assert l.tokens - {} == l.tokens && l.owners - {} == l.owners;
    }

    /** The next deletion of several: `done` have been deleted since the tables were `l`. */
    method DeleteNext(ghost l: Links, ghost done: set<ConnKey>, k: ConnKey, user: Option<Uid>,
                      conns: nat, toks: nat, pending: map<TokKey, TokenPair>)
      returns (conns': nat, toks': nat, pending': map<TokKey, TokenPair>)
      requires k in l.conns && k !in done && Sweep(db.links, conns, toks, pending) == Swept(l, done, user)
      modifies this
      ensures db == old(db).(links := db.links)
              && Sweep(db.links, conns', toks', pending') == Swept(l, done + {k}, user)
    {
      PendingOneMore(l, done, k, Deletable(l, user));
      GuardedOneMore(l, done, k, user);
      conns', toks', pending' := DeleteGuarded(k, user, pending);
      conns', toks' := conns + conns', toks + toks';
    }

    /** Deletes the given connections one after the other, in any order. */
    method DeleteEach(ks: set<ConnKey>, user: Option<Uid>)
      returns (conns: nat, toks: nat, pending: map<TokKey, TokenPair>)
      requires ks <= db.links.conns.Keys
      modifies this
      ensures db == old(db).(links := db.links)
              && Sweep(db.links, conns, toks, pending) == Swept(old(db).links, ks, user)
    {
      ghost var l := db.links;
      ghost var done: set<ConnKey> := {};
      NothingSwept(l, user);
      var todo := ks;
      conns, toks, pending := 0, 0, map[];
      while todo != {}
        invariant done == ks - todo && todo <= ks && db == old(db).(links := db.links)
        invariant Sweep(db.links, conns, toks, pending) == Swept(l, done, user)
        decreases todo
      {
        var k :| k in todo;
        conns, toks, pending := DeleteNext(l, done, k, user, conns, toks, pending);
        done, todo := done + {k}, todo - {k};
      }
      assert done == ks;
    }

    // -------------------------------------------------------- sessions, transactions, installations

    method DeleteSessionsOf(iid: Iid) returns (n: nat)
      modifies this
      ensures db == old(db).(sessions := old(db).sessions - SessionsOf(old(db).sessions, {iid}))
      ensures n == |SessionsOf(old(db).sessions, {iid})|
    {
      var doomed := set s | s in db.sessions && db.sessions[s].installation == Some(iid);
      assert doomed == SessionsOf(db.sessions, {iid});
      db := db.(sessions := db.sessions - doomed);
      n := |doomed|;
    }

    method DeleteSessionsFor(user: Uid) returns (n: nat)
      modifies this
      ensures db == old(db).(sessions := old(db).sessions - SessionsFor(old(db).sessions, user))
      ensures n == |SessionsFor(old(db).sessions, user)|
    {
      var doomed := set s | s in db.sessions && db.sessions[s].user == Some(user);
      db := db.(sessions := db.sessions - doomed);
      n := |doomed|;
    }

    method DeleteTxnsOf(iid: Iid) returns (n: nat)
      modifies this
      ensures db == old(db).(txns := old(db).txns - TxnsOf(old(db).txns, {iid}))
      ensures n == |TxnsOf(old(db).txns, {iid})|
    {
      var doomed := set t | t in db.txns && db.txns[t] == iid;
      assert doomed == TxnsOf(db.txns, {iid});
      db := db.(txns := db.txns - doomed);
      n := |doomed|;
    }

    method DeleteInstallation(iid: Iid)
      modifies this
      ensures db == old(db).(installs := old(db).installs - {iid}, adopted := old(db).adopted - {iid})
    {
      db := db.(installs := db.installs - {iid});
      db := db.(adopted := db.adopted - {iid});
    }

    /** The sessions of several installations, one installation at a time. */
    method DeleteSessionsOfAll(iids: set<Iid>) returns (n: nat)
      modifies this
      ensures db == old(db).(sessions := old(db).sessions - SessionsOf(old(db).sessions, iids))
      ensures n == |SessionsOf(old(db).sessions, iids)|
    {
      ghost var ss := db.sessions;
      ghost var done: set<Iid> := {};
      var todo := iids;
      n := 0;
      assert SessionsOf(ss, done) == {} && ss - {} == ss;
      while todo != {}
        invariant done == iids - todo && todo <= iids
        invariant db == old(db).(sessions := ss - SessionsOf(ss, done)) && n == |SessionsOf(ss, done)|
        decreases todo
      {
        var iid :| iid in todo;
        SessionsOneMore(ss, done, iid);
        var c := DeleteSessionsOf(iid);
        n := n + c;
        done, todo := done + {iid}, todo - {iid};
      }
      assert done == iids;
    }

    method DeleteTxnsOfAll(iids: set<Iid>) returns (n: nat)
      modifies this
      ensures db == old(db).(txns := old(db).txns - TxnsOf(old(db).txns, iids))
      ensures n == |TxnsOf(old(db).txns, iids)|
    {
      ghost var ts := db.txns;
      ghost var done: set<Iid> := {};
      var todo := iids;
      n := 0;
      assert TxnsOf(ts, done) == {} && ts - {} == ts;
      while todo != {}
        invariant done == iids - todo && todo <= iids
        invariant db == old(db).(txns := ts - TxnsOf(ts, done)) && n == |TxnsOf(ts, done)|
        decreases todo
      {
        var iid :| iid in todo;
        TxnsOneMore(ts, done, iid);
        var c := DeleteTxnsOf(iid);
        n := n + c;
        done, todo := done + {iid}, todo - {iid};
      }
      assert done == iids;
    }

    method DeleteInstallations(iids: set<Iid>) returns (n: nat)
      modifies this
      ensures db == old(db).(installs := old(db).installs - iids, adopted := old(db).adopted - iids)
      ensures n == |iids|
    {
      ghost var done: set<Iid> := {};
      var todo := iids;
      n := 0;
      assert db.installs - {} == db.installs && db.adopted - {} == db.adopted;
      while todo != {}
        invariant done == iids - todo && todo <= iids && n == |done|
        invariant db == old(db).(installs := old(db).installs - done, adopted := old(db).adopted - done)
        decreases todo
      {
        var iid :| iid in todo;
        MinusTwice(old(db).installs, done, {iid});
        MinusTwice(old(db).adopted, done, {iid});
        DeleteInstallation(iid);
        n := n + 1;
        done, todo := done + {iid}, todo - {iid};
      }
      assert done == iids;
    }

    // -------------------------------------------------------- the operations

    /** Nothing is erased without a user id. */
    method EraseUser(user: Uid) returns (ok: bool, erased: Counts, pending: map<TokKey, TokenPair>)
      modifies this
      ensures ok <==> user != ""
      ensures !ok ==> db == old(db)
      ensures ok ==> db == UserErased(old(db), user) && erased == UserErasedCounts(old(db), user)
                     && pending == Pending(old(db).links, Mine(old(db), user))
    {
      if user == "" {
        return false, ZERO, map[];
      }
      var owned := Owned(db, user);
      var mine := Mine(db, user);
      var conns, toks;
      conns, toks, pending := DeleteEach(mine, Some(user));
      var n1 := DeleteSessionsOfAll(owned);
      var n2 := DeleteSessionsFor(user);
      SessionsBoth(old(db).sessions, owned, user);
      var txns := DeleteTxnsOfAll(owned);
      var installations := DeleteInstallations(owned);
      var users := if user in db.users then 1 else 0;
      db := db.(users := db.users - {user});
      ok, erased := true, Counts(users, installations, n1 + n2, conns, toks, txns);
    }

    /** Signing out removes every connection of the installation. */
    method CleanInstallation(iid: Iid) returns (conns: nat, toks: nat, pending: map<TokKey, TokenPair>)
      modifies this
      ensures var l := old(db).links; var ks := if iid == "" then {} else ConnsOf(l.conns, iid);
              && db == old(db).(links := Cleaned(l, ks))
              && conns == |ks| && toks == |Orphans(l, ks, EligibleRows(l))| && pending == Pending(l, ks)
    {
      if iid == "" {
        DropNothing(db.links, EligibleRows(db.links));
        return 0, 0, map[];
      }
      conns, toks, pending := DeleteEach(ConnsOf(db.links.conns, iid), None);
    }

    /** One connection of the installation is looked at, and deleted if it is another user's. */
    method PurgeOne(ghost l: Links, ghost todo: set<ConnKey>, k: ConnKey, user: Uid, iid: Iid,
                    conns: nat, toks: nat, pending: map<TokKey, TokenPair>)
      returns (conns': nat, toks': nat, pending': map<TokKey, TokenPair>)
      requires k in todo && todo <= ConnsOf(l.conns, iid)
      requires Sweep(db.links, conns, toks, pending) == Swept(l, Foreign(l, user, iid) - todo, None)
      modifies this
      ensures db == old(db).(links := db.links)
      ensures Sweep(db.links, conns', toks', pending') == Swept(l, Foreign(l, user, iid) - (todo - {k}), None)
    {
      ghost var f := Foreign(l, user, iid);
      DropSpares(l, f - todo, Deletable(l, None), k);
      var owner := EntryOwner(db.links, k);
      if owner == None || owner == Some(user) {
        assert f - (todo - {k}) == f - todo;
        conns', toks', pending' := conns, toks, pending;
      } else {
        assert f - (todo - {k}) == f - todo + {k};
        conns', toks', pending' := DeleteNext(l, f - todo, k, None, conns, toks, pending);
      }
    }

    /** Before a login adopts an installation, other users' connections are removed from it. */
    method PurgeForeign(user: Uid, iid: Iid) returns (conns: nat, toks: nat, pending: map<TokKey, TokenPair>)
      modifies this
      ensures db == old(db).(links := db.links)
      ensures var ks := if user == "" || iid == "" then {} else Foreign(old(db).links, user, iid);
              Sweep(db.links, conns, toks, pending) == Swept(old(db).links, ks, None)
    {
      ghost var l := db.links;
      NothingSwept(l, None);
      if user == "" || iid == "" {
        return 0, 0, map[];
      }
      var todo := ConnsOf(db.links.conns, iid);
      conns, toks, pending := 0, 0, map[];
      assert Foreign(l, user, iid) - todo == {};
      while todo != {}
        invariant todo <= ConnsOf(l.conns, iid) && db == old(db).(links := db.links)
        invariant Sweep(db.links, conns, toks, pending) == Swept(l, Foreign(l, user, iid) - todo, None)
        decreases todo
      {
        var k :| k in todo;
        conns, toks, pending := PurgeOne(l, todo, k, user, iid, conns, toks, pending);
        todo := todo - {k};
      }
      assert Foreign(l, user, iid) - {} == Foreign(l, user, iid);
    }

    /** Records an owner; false when the row does not exist. */
    method SetOwner(t: TokKey, user: Uid) returns (ok: bool)
      modifies this
      ensures ok <==> t in old(db).links.tokens
      ensures db == if ok then old(db).(links := old(db).links.(owners := old(db).links.owners[t := user])) else old(db)
    {
      ok := t in db.links.tokens;
      if ok {
        db := db.(links := db.links.(owners := db.links.owners[t := user]));
      }
    }

    /** Records the user for those of the rows that exist, and counts them. */
    method SetOwners(ts: set<TokKey>, user: Uid) returns (n: nat)
      modifies this
      ensures db == old(db).(links := db.links) && (db.links, n) == Recorded(old(db).links, ts, user)
    {
      ghost var l := db.links;
      var todo := ts;
      n := 0;
      NoneRecorded(l, user);
      while todo != {}
        invariant todo <= ts && db == old(db).(links := db.links)
        invariant (db.links, n) == Recorded(l, ts - todo, user)
        decreases todo
      {
        var t :| t in todo;
        n := SetOneOwner(l, ts - todo, t, user, n);
        assert ts - (todo - {t}) == ts - todo + {t};
        todo := todo - {t};
      }
      assert ts - {} == ts;
    }

    method SetOneOwner(ghost l: Links, ghost done: set<TokKey>, t: TokKey, user: Uid, n: nat) returns (n': nat)
      requires t !in done && (db.links, n) == Recorded(l, done, user)
      modifies this
      ensures db == old(db).(links := db.links) && (db.links, n') == Recorded(l, done + {t}, user)
    {
      OwnersOneMore(l, done, t, user);
      RowsOneMore(l, done, t);
      var ok := SetOwner(t, user);
      n' := if ok then n + 1 else n;
    }

    /** Adoption marks the installation, its sessions and connections, and their token rows. */
    method Adopt(user: Uid, iid: Iid) returns (installations: nat, toks: nat)
      requires user != "" && iid != "" // the code raises an error
      modifies this
      ensures db == Adopted(old(db), user, iid)
      ensures installations == (if iid in old(db).installs then 1 else 0)
      ensures toks == if iid in old(db).installs
                      then |PairsOf(old(db).links.conns, iid) * old(db).links.tokens.Keys| else 0
    {
      if iid !in db.installs {
        return 0, 0;
      }
      db := db.(adopted := db.adopted[iid := user]);
      db := db.(sessions := MarkedSessions(db.sessions, iid, user));
      var pairs := PairsOf(db.links.conns, iid);
      db := db.(links := db.links.(conns := MarkedConns(db.links.conns, iid, user)));
      toks := SetOwners(pairs, user);
      installations := 1;
      assert OwnersSet(old(db).links, pairs, user) == db.links.owners;
    }

    /** What a successful login does to the tables besides storing the user's session. */
    method Login(user: Uid, iid: Iid)
      modifies this
      ensures db == if user == "" || iid == "" then old(db) else LoggedIn(old(db), user, iid)
    {
      if user == "" || iid == "" {
        return;
      }
      var _, _, _ := PurgeForeign(user, iid);
      var _, _ := Adopt(user, iid);
    }

    method EnforceOwner(user: Uid, iid: Iid, p: Provider) returns (ok: bool)
      modifies this
      ensures (ok, db) == Enforced(old(db), user, iid, p)
    {
      var k := ConnKey(iid, p);
      if iid in db.adopted && db.adopted[iid] != user {
        return false;
      }
      if k !in db.links.conns {
        return true;
      }
      var e := db.links.conns[k];
      if e.marker.Some? && e.marker.value != user {
        return false;
      }
      var t := TokKey(p, e.account.GetOr(""));
      var owner := if t.puid != "" && t in db.links.owners then Some(db.links.owners[t]) else None;
      if owner != None && owner != Some(user) {
        return false;
      }
      if e.marker == None {
        db := db.(links := db.links.(conns := db.links.conns[k := e.(marker := Some(user))]));
      }
      if owner == None && t.puid != "" {
        var _ := SetOwner(t, user);
      }
      return true;
    }

    method StampCallbackOwner(k: ConnKey, account: string)
      modifies this
      ensures db == Stamped(old(db), k, account)
    {
      if k.iid !in db.adopted || db.adopted[k.iid] == "" {
        return;
      }
      var user := db.adopted[k.iid];
      if k in db.links.conns {
        var e := db.links.conns[k];
        db := db.(links := db.links.(conns := db.links.conns[k := e.(marker := Some(user))]));
      }
      if account != "" {
        var _ := SetOwner(TokKey(k.provider, account), user);
      }
    }

    /** Local erasure of one connection by its provider's service, which filters no rows. */
    method EraseLocal(k: ConnKey) returns (found: bool, rowDeleted: bool)
      modifies this
      ensures found <==> k in old(db).links.conns
      ensures db == old(db).(links := if found then Drop(old(db).links, {k}, old(db).links.tokens.Keys)
                             else old(db).links)
      ensures rowDeleted <==> found && Orphans(old(db).links, {k}, old(db).links.tokens.Keys) != {}
      ensures |Orphans(old(db).links, {k}, old(db).links.tokens.Keys)| <= 1
    {
      var l := db.links;
      found, rowDeleted := k in l.conns, false;
      if !found {
        assert Orphans(l, {k}, l.tokens.Keys) == {};
        return;
      }
      var ref := Ref(k, l.conns[k]);
      SingleOrphan(l, k, l.tokens.Keys);
      DeleteConnection(k);
      if ref.Some? && ref.value in l.tokens {
        if Referencing(db.links.conns, ref.value) == {} {
          DeleteToken(ref.value);
          rowDeleted := true;
        }
      }
      assert l.tokens - {} == l.tokens && l.owners - {} == l.owners;
    }

    /** Erasing an installation, provider by provider. */
    method EraseInstallation(iid: Iid, services: set<Provider>)
      returns (conns: nat, toks: nat, sess: nat, txns: nat, installation: nat)
      modifies this
      ensures db == InstallErased(old(db), iid, services)
      ensures var l := old(db).links; var ks := ConnsWith(l.conns, iid, services);
              && conns == |ks| && toks == |Orphans(l, ks, l.tokens.Keys)|
              && sess == |SessionsOf(old(db).sessions, {iid})| && txns == |TxnsOf(old(db).txns, {iid})|
              && installation == if iid in old(db).installs then 1 else 0
    {
      ghost var l := db.links;
      ghost var done: set<Provider> := {};
      var todo := services;
      conns, toks := 0, 0;
      NoneErased(l, iid);
      while todo != {}
        invariant done == services - todo && todo <= services && db == old(db).(links := db.links)
        invariant ErasedFor(l, db.links, iid, done, conns, toks)
        decreases todo
      {
        var p :| p in todo;
        ErasedOneMore(l, db.links, iid, done, p, conns, toks);
        var found, row := EraseLocal(ConnKey(iid, p));
        conns, toks := conns + (if found then 1 else 0), toks + (if row then 1 else 0);
        done, todo := done + {p}, todo - {p};
      }
      assert done == services;
      sess := DeleteSessionsOf(iid);
      txns := DeleteTxnsOf(iid);
      installation := if iid in db.installs then 1 else 0;
      DeleteInstallation(iid);
    }
  }

  /** The connections of the providers `done` have been erased from `l`, leaving `d`. */
  ghost predicate ErasedFor(l: Links, d: Links, iid: Iid, done: set<Provider>, conns: nat, toks: nat) {
    var ks := ConnsWith(l.conns, iid, done);
    d == Drop(l, ks, l.tokens.Keys) && conns == |ks| && toks == |Orphans(l, ks, l.tokens.Keys)|
  }

  lemma NoneErased(l: Links, iid: Iid)
    ensures ErasedFor(l, l, iid, {}, 0, 0)
  {
    assert ConnsWith(l.conns, iid, {}) == {};
    DropNothing(l, l.tokens.Keys);
  }

  lemma ErasedOneMore(l: Links, d: Links, iid: Iid, done: set<Provider>, p: Provider, conns: nat,
                      toks: nat)
    requires p !in done && ErasedFor(l, d, iid, done, conns, toks)
    ensures var k := ConnKey(iid, p);
            if k in d.conns
            then ErasedFor(l, Drop(d, {k}, d.tokens.Keys), iid, done + {p}, conns + 1,
                           toks + |Orphans(d, {k}, d.tokens.Keys)|)
            else ErasedFor(l, d, iid, done + {p}, conns, toks)
  {
    var k := ConnKey(iid, p);
    var ks := ConnsWith(l.conns, iid, done);
    if k in d.conns {
      assert ConnsWith(l.conns, iid, done + {p}) == ks + {k};
      DropOneMore(l, ks, k, l.tokens.Keys);
      OnlyExistingRows(d, {k}, d.tokens.Keys, l.tokens.Keys);
    } else {
      assert ConnsWith(l.conns, iid, done + {p}) == ks;
    }
  }

  /** The tables, and the count, once `user` is recorded for those of the rows `ts` that exist. */
  function Recorded(l: Links, ts: set<TokKey>, user: Uid): (Links, nat) {
    (l.(owners := OwnersSet(l, ts, user)), |ts * l.tokens.Keys|)
  }

  lemma NoneRecorded(l: Links, user: Uid)
    ensures Recorded(l, {}, user) == (l, 0)
  {
    assert {} * l.tokens.Keys == {} && OwnersSet(l, {}, user) == l.owners;
  }

  lemma OwnersOneMore(l: Links, done: set<TokKey>, t: TokKey, user: Uid)
    requires t !in done
    ensures OwnersSet(l, done + {t}, user)
         == if t in l.tokens then OwnersSet(l, done, user)[t := user] else OwnersSet(l, done, user)
  {
    RowsOneMore(l, done, t);
    GivenOneMore(l.owners, done * l.tokens.Keys, t, user);
  }

  lemma GivenOneMore(m: map<TokKey, Uid>, ts: set<TokKey>, t: TokKey, user: Uid)
    ensures m + Given(ts + {t}, user) == (m + Given(ts, user))[t := user]
  {
  }

  lemma RowsOneMore(l: Links, done: set<TokKey>, t: TokKey)
    requires t !in done
    ensures (done + {t}) * l.tokens.Keys
         == if t in l.tokens then done * l.tokens.Keys + {t} else done * l.tokens.Keys
    ensures |(done + {t}) * l.tokens.Keys| == |done * l.tokens.Keys| + if t in l.tokens then 1 else 0
  {
    if t in l.tokens {
      assert (done + {t}) * l.tokens.Keys == done * l.tokens.Keys + {t};
    } else {
      assert (done + {t}) * l.tokens.Keys == done * l.tokens.Keys;
    }
  }

  lemma SessionsOneMore(ss: map<string, Session>, done: set<Iid>, iid: Iid)
    requires iid !in done
    ensures var rest := ss - SessionsOf(ss, done);
            && rest - SessionsOf(rest, {iid}) == ss - SessionsOf(ss, done + {iid})
            && |SessionsOf(ss, done + {iid})| == |SessionsOf(ss, done)| + |SessionsOf(rest, {iid})|
  {
    var rest := ss - SessionsOf(ss, done);
    assert SessionsOf(ss, done + {iid}) == SessionsOf(ss, done) + SessionsOf(rest, {iid});
    MinusTwice(ss, SessionsOf(ss, done), SessionsOf(rest, {iid}));
  }

  lemma TxnsOneMore(ts: map<string, Iid>, done: set<Iid>, iid: Iid)
    requires iid !in done
    ensures var rest := ts - TxnsOf(ts, done);
            && rest - TxnsOf(rest, {iid}) == ts - TxnsOf(ts, done + {iid})
            && |TxnsOf(ts, done + {iid})| == |TxnsOf(ts, done)| + |TxnsOf(rest, {iid})|
  {
    var rest := ts - TxnsOf(ts, done);
    assert TxnsOf(ts, done + {iid}) == TxnsOf(ts, done) + TxnsOf(rest, {iid});
    MinusTwice(ts, TxnsOf(ts, done), TxnsOf(rest, {iid}));
  }

  lemma SessionsBoth(ss: map<string, Session>, owned: set<Iid>, user: Uid)
    ensures var rest := ss - SessionsOf(ss, owned);
            && rest - SessionsFor(rest, user) == ss - (SessionsOf(ss, owned) + SessionsFor(ss, user))
            && |SessionsOf(ss, owned) + SessionsFor(ss, user)| == |SessionsOf(ss, owned)| + |SessionsFor(rest, user)|
  {
    var rest := ss - SessionsOf(ss, owned);
    assert SessionsOf(ss, owned) + SessionsFor(ss, user) == SessionsOf(ss, owned) + SessionsFor(rest, user);
    MinusTwice(ss, SessionsOf(ss, owned), SessionsFor(rest, user));
  }
}
