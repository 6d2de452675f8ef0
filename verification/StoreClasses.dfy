/**
The token and session stores as they are written: dictionaries and rows changed in place,
one row at a time where the code loops.  Each method is tied to the transition functions
of `StoreModels`, for which both implementations are shown to agree.
*/
module StoreClasses {
  import opened Options
  import opened Tables
  import opened Auth
  import opened StoreModels

  class InMemoryTokenStore {
    var data: map<TokKey, TokenPair>
    var owners: map<TokKey, Uid>

    ghost function Both(): MemTokens
      reads this
    {
      MemTokens(data, owners)
    }

    constructor ()
      ensures Both() == MemTokens(map[], map[])
    {
      data, owners := map[], map[];
    }

    method Save(t: TokKey, pair: TokenPair)
      modifies this
      ensures Both() == MemTok(old(Both()), SaveTok(t, pair)).0
    {
      data := data[t := pair];
    }

    method Load(t: TokKey) returns (pair: Option<TokenPair>)
      ensures (Both(), Pair(pair)) == MemTok(Both(), LoadTok(t))
    {
      pair := if t in data then Some(data[t]) else None;
    }

    method Delete(t: TokKey)
      modifies this
      ensures Both() == MemTok(old(Both()), DeleteTok(t)).0
    {
      data := data - {t};
      owners := owners - {t};
    }

    method SetOwnerOf(t: TokKey, owner: Uid) returns (ok: bool)
      modifies this
      ensures (Both(), Flag(ok)) == MemTok(old(Both()), SetOwner(t, owner))
    {
      if t !in data {
        return false;
      }
      owners := owners[t := owner];
      return true;
    }

    method GetOwner(t: TokKey) returns (owner: Option<Uid>)
      ensures (Both(), User(owner)) == MemTok(Both(), OwnerOf(t))
    {
      owner := if t in owners then Some(owners[t]) else None;
    }
  }

  class PgTokenStore {
    var rows: PgTokens

    constructor ()
      ensures rows == map[]
    {
      rows := map[];
    }

    /** Insert, or on conflict update the pair alone. */
    method Save(t: TokKey, pair: TokenPair)
      modifies this
      ensures rows == PgTok(old(rows), SaveTok(t, pair)).0
    {
      if t in rows {
        rows := rows[t := rows[t].(pair := pair)];
      } else {
        rows := rows[t := TokRow(pair, None)];
      }
    }

    method Load(t: TokKey) returns (pair: Option<TokenPair>)
      ensures (rows, Pair(pair)) == PgTok(rows, LoadTok(t))
    {
      pair := if t in rows then Some(rows[t].pair) else None;
    }

    method Delete(t: TokKey)
      modifies this
      ensures rows == PgTok(old(rows), DeleteTok(t)).0
    {
      rows := rows - {t};
    }

    method SetOwnerOf(t: TokKey, owner: Uid) returns (ok: bool)
      modifies this
      ensures (rows, Flag(ok)) == PgTok(old(rows), SetOwner(t, owner))
    {
      ok := t in rows;
      if ok {
        rows := rows[t := rows[t].(owner := Some(owner))];
      }
    }

    method GetOwner(t: TokKey) returns (owner: Option<Uid>)
      ensures (rows, User(owner)) == PgTok(rows, OwnerOf(t))
    {
      owner := if t in rows then rows[t].owner else None;
    }
  }

  // ------------------------------------------------------------ rows removed and changed one at a time

  /** `m` once the rows of `which` but those in `todo` have been changed by `f`, and how many were. */
  function Changed<V>(m: map<string, V>, which: set<string>, todo: set<string>, f: V -> V): (map<string, V>, nat) {
    (map k | k in m :: if k in which - todo then f(m[k]) else m[k], |which - todo|)
  }

  lemma ChangedNone<V>(m: map<string, V>, which: set<string>, f: V -> V)
    requires which <= m.Keys
    ensures Changed(m, which, m.Keys, f) == (m, 0)
  {
    assert which - m.Keys == {};
    assert Changed(m, which, m.Keys, f).0 == m;
  }

  lemma ChangedNext<V>(m: map<string, V>, which: set<string>, todo: set<string>, k: string,
                       f: V -> V)
    requires k in todo && k in m
    ensures var (now, n) := Changed(m, which, todo, f);
            && k in now && now[k] == m[k]
            && Changed(m, which, todo - {k}, f) == if k in which then (now[k := f(m[k])], n + 1) else (now, n)
  {
    OneLess(which, todo, k);
    var now := Changed(m, which, todo, f).0;
    assert Changed(m, which, todo - {k}, f).0 == if k in which then now[k := f(m[k])] else now;
  }

  /** Goes through all rows and changes those that `picks` picks, counting them. */
  method ChangeEach<V>(m: map<string, V>, ghost which: set<string>, picks: V -> bool, f: V -> V)
    returns (now: map<string, V>, n: nat)
    requires which <= m.Keys && forall k :: k in m ==> (k in which <==> picks(m[k]))
    ensures (now, n) == Changed(m, which, {}, f)
  {
    var todo := m.Keys;
    now, n := m, 0;
    ChangedNone(m, which, f);
    while todo != {}
      invariant todo <= m.Keys && (now, n) == Changed(m, which, todo, f)
      decreases todo
    {
      var k :| k in todo;
      ChangedNext(m, which, todo, k, f);
      if picks(now[k]) {
        now, n := now[k := f(now[k])], n + 1;
      }
      todo := todo - {k};
    }
  }

  function Claim(user: Uid): Payload -> Payload {
    (p: Payload) => p.(user := Some(user))
  }

  function IsRowOf(iid: Iid): SessRow -> bool {
    (r: SessRow) => r.payload.iid == Some(iid)
  }

  function ClaimRow(user: Uid): SessRow -> SessRow {
    (r: SessRow) => SessRow(r.payload.(user := Some(user)), Some(user))
  }

  lemma AllMarked(m: Sessions, iid: Iid, user: Uid)
    ensures var (now, n) := Changed(m, Doomed(m, IsOf(iid)), {}, Claim(user));
            (now, Number(n)) == MemSess(m, MarkSess(iid, user))
  {
    WithoutNone(Doomed(m, IsOf(iid)));
    assert Changed(m, Doomed(m, IsOf(iid)), {}, Claim(user)).0 == MemSess(m, MarkSess(iid, user)).0;
  }

  lemma AllRowsMarked(m: PgSessions, iid: Iid, user: Uid)
    ensures var (now, n) := Changed(m, DoomedRows(m, IsOf(iid)), {}, ClaimRow(user));
            (now, Number(n)) == PgSess(m, MarkSess(iid, user))
  {
    WithoutNone(DoomedRows(m, IsOf(iid)));
    assert Changed(m, DoomedRows(m, IsOf(iid)), {}, ClaimRow(user)).0 == PgSess(m, MarkSess(iid, user)).0;
  }

  /** `m` once its dead rows but those in `todo` are gone, and how many were expired and how many revoked. */
  function Left(m: Sessions, todo: set<string>, now: real): (Sessions, nat, nat) {
    Sifted(m, Doomed(m, IsExpired(now)), Doomed(m, IsRevoked(now)), todo)
  }

  /** A listed row is removed, and counted as expired if it was, else as revoked. */
  function Removed(left: Sessions, k: string, now: real, expired: nat, revoked: nat): (Sessions, nat, nat)
    requires k in left
  {
    if left[k].expiresAt <= now then (left - {k}, expired + 1, revoked) else (left - {k}, expired, revoked + 1)
  }

  lemma ListedNext(m: Sessions, todo: set<string>, k: string, now: real)
    requires k in todo && k in m && (m[k].expiresAt <= now || m[k].revoked)
    ensures var (left, expired, revoked) := Left(m, todo, now);
            k in left && Left(m, todo - {k}, now) == Removed(left, k, now, expired, revoked)
  {
    SiftedNext(m, Doomed(m, IsExpired(now)), Doomed(m, IsRevoked(now)), todo, k);
  }

  lemma ListedAll(m: Sessions, now: real)
    ensures var (left, expired, revoked) := Left(m, {}, now);
            (left, Two(expired, revoked)) == MemSess(m, PurgeSess(now)) && expired + revoked == |m| - |left|
  {
    SiftedAll(m, Doomed(m, IsExpired(now)), Doomed(m, IsRevoked(now)));
  }

  lemma ListedNone(m: Sessions, now: real)
    ensures var dead := set k | k in m && (m[k].expiresAt <= now || m[k].revoked); Left(m, dead, now) == (m, 0, 0)
  {
    var a, b := Doomed(m, IsExpired(now)), Doomed(m, IsRevoked(now));
    DeadRows(m, now);
    SiftedNone(m, a, b, a + b);
  }

  /** Lists the dead rows first; then removes each, and asks why it was dead. */
  method PurgeListed(m: Sessions, now: real) returns (left: Sessions, expired: nat, revoked: nat)
    ensures (left, Two(expired, revoked)) == MemSess(m, PurgeSess(now))
    ensures expired + revoked == |m| - |left|
  {
    ListedNone(m, now);
    ListedAll(m, now);
    var todo := set k | k in m && (m[k].expiresAt <= now || m[k].revoked);
    left, expired, revoked := m, 0, 0;
    while todo != {}
      invariant forall k :: k in todo ==> k in m && (m[k].expiresAt <= now || m[k].revoked)
      invariant (left, expired, revoked) == Left(m, todo, now)
      decreases todo
    {
      var k :| k in todo;
      ListedNext(m, todo, k, now);
      left, expired, revoked := RemoveListed(left, k, now, expired, revoked);
      todo := todo - {k};
    }
  }

  method RemoveListed(m: Sessions, k: string, now: real, e: nat, r: nat)
    returns (left: Sessions, expired: nat, revoked: nat)
    requires k in m
    ensures (left, expired, revoked) == Removed(m, k, now, e, r)
  {
    var payload := m[k];
    left, expired, revoked := m - {k}, e, r;
    if payload.expiresAt <= now {
      expired := expired + 1;
    } else {
      revoked := revoked + 1;
    }
  }

  /** `m` once its dead rows but those in `todo` are gone, and how many were expired and how many revoked. */
  function RowsLeft(m: PgSessions, todo: set<string>, now: real): (PgSessions, nat, nat) {
    Sifted(m, DoomedRows(m, IsExpired(now)), DoomedRows(m, IsRevoked(now)), todo)
  }

  /** A row read is classified, and removed if it is dead. */
  function Classified(left: PgSessions, k: string, now: real, expired: nat, revoked: nat): (PgSessions, nat, nat)
    requires k in left
  {
    if left[k].payload.expiresAt <= now then (left - {k}, expired + 1, revoked)
    else if left[k].payload.revoked then (left - {k}, expired, revoked + 1)
    else (left, expired, revoked)
  }

  lemma ReadNext(m: PgSessions, todo: set<string>, k: string, now: real)
    requires k in todo && k in m
    ensures var (left, expired, revoked) := RowsLeft(m, todo, now);
            k in left && RowsLeft(m, todo - {k}, now) == Classified(left, k, now, expired, revoked)
  {
    SiftedNext(m, DoomedRows(m, IsExpired(now)), DoomedRows(m, IsRevoked(now)), todo, k);
  }

  lemma ReadAll(m: PgSessions, now: real)
    ensures RowsLeft(m, m.Keys, now) == (m, 0, 0)
    ensures var (left, expired, revoked) := RowsLeft(m, {}, now);
            (left, Two(expired, revoked)) == PgSess(m, PurgeSess(now)) && expired + revoked == |m| - |left|
  {
    var a, b := DoomedRows(m, IsExpired(now)), DoomedRows(m, IsRevoked(now));
    SiftedNone(m, a, b, m.Keys);
    SiftedAll(m, a, b);
  }

  method PurgeRead(m: PgSessions, now: real) returns (left: PgSessions, expired: nat, revoked: nat)
    ensures (left, Two(expired, revoked)) == PgSess(m, PurgeSess(now))
    ensures expired + revoked == |m| - |left|
  {
    ReadAll(m, now);
    var todo := m.Keys;
    left, expired, revoked := m, 0, 0;
    while todo != {}
      invariant todo <= m.Keys
      invariant (left, expired, revoked) == RowsLeft(m, todo, now)
      decreases todo
    {
      var k :| k in todo;
      ReadNext(m, todo, k, now);
      left, expired, revoked := ClassifyRow(left, k, now, expired, revoked);
      todo := todo - {k};
    }
  }

  method ClassifyRow(m: PgSessions, k: string, now: real, e: nat, r: nat)
    returns (left: PgSessions, expired: nat, revoked: nat)
    requires k in m
    ensures (left, expired, revoked) == Classified(m, k, now, e, r)
  {
    var payload, doomed := m[k].payload, false;
    left, expired, revoked := m, e, r;
    if payload.expiresAt <= now {
      doomed, expired := true, expired + 1;
    } else if payload.revoked {
      doomed, revoked := true, revoked + 1;
    }
    if doomed {
      left := left - {k};
    }
  }

  class InMemorySessionStore {
    var data: Sessions

    constructor ()
      ensures data == map[]
    {
      data := map[];
    }

    method Save(id: string, payload: Payload)
      modifies this
      ensures data == MemSess(old(data), SaveSess(id, payload)).0
    {
      data := data[id := payload];
    }

    /** Removes the listed rows one by one. */
    method DeleteAll(doomed: set<string>) returns (n: nat)
      requires doomed <= data.Keys
      modifies this
      ensures data == old(data) - doomed && n == |doomed|
    {
      ghost var m := data;
      var todo := doomed;
      n := 0;
      SiftedNone(m, doomed, {}, todo);
      while todo != {}
        invariant todo <= doomed && (data, n, 0) == Sifted(m, doomed, {}, todo)
        decreases todo
      {
        var k :| k in todo;
        SiftedNext(m, doomed, {}, todo, k);
        data, n := data - {k}, n + 1;
        todo := todo - {k};
      }
      SiftedAll(m, doomed, {});
      assert doomed + {} == doomed;
    }

    method DeleteForUser(user: Uid) returns (n: nat)
      modifies this
      ensures (data, Number(n)) == MemSess(old(data), DeleteSessFor(user))
    {
      var doomed := set k | k in data && user != "" && data[k].user == Some(user);
      assert doomed == Doomed(data, IsFor(user));
      n := DeleteAll(doomed);
    }

    method DeleteForInstallation(iid: Iid) returns (n: nat)
      modifies this
      ensures (data, Number(n)) == MemSess(old(data), DeleteSessOf(iid))
    {
      var doomed := set k | k in data && data[k].iid == Some(iid);
      assert doomed == Doomed(data, IsOf(iid));
      n := DeleteAll(doomed);
    }

    method PurgeExpired(now: real) returns (expired: nat, revoked: nat)
      modifies this
      ensures (data, Two(expired, revoked)) == MemSess(old(data), PurgeSess(now))
      ensures expired + revoked == |old(data)| - |data|
    {
      data, expired, revoked := PurgeListed(data, now);
    }

    /** Marks the rows of an installation one by one. */
    method SetUserIdForInstallation(iid: Iid, user: Uid) returns (n: nat)
      modifies this
      ensures (data, Number(n)) == MemSess(old(data), MarkSess(iid, user))
    {
      AllMarked(data, iid, user);
      data, n := ChangeEach(data, Doomed(data, IsOf(iid)), IsOf(iid), Claim(user));
    }
  }

  /** The rows a purge removes are the expired and the revoked ones. */
  lemma DeadRows(m: Sessions, now: real)
    ensures (set k | k in m && (m[k].expiresAt <= now || m[k].revoked))
         == Doomed(m, IsExpired(now)) + Doomed(m, IsRevoked(now))
    ensures Doomed(m, IsExpired(now)) !! Doomed(m, IsRevoked(now))
  {
  }

  class PgSessionStore {
    var rows: PgSessions

    constructor ()
      ensures rows == map[]
    {
      rows := map[];
    }

    method Save(id: string, payload: Payload)
      modifies this
      ensures rows == PgSess(old(rows), SaveSess(id, payload)).0
    {
      rows := rows[id := SessRow(payload, payload.user)];
    }

    method DeleteAll(doomed: set<string>) returns (n: nat)
      requires doomed <= rows.Keys
      modifies this
      ensures rows == old(rows) - doomed && n == |doomed|
    {
      ghost var m := rows;
      var todo := doomed;
      n := 0;
      SiftedNone(m, doomed, {}, todo);
      while todo != {}
        invariant todo <= doomed && (rows, n, 0) == Sifted(m, doomed, {}, todo)
        decreases todo
      {
        var k :| k in todo;
        SiftedNext(m, doomed, {}, todo, k);
        rows, n := rows - {k}, n + 1;
        todo := todo - {k};
      }
      SiftedAll(m, doomed, {});
      assert doomed + {} == doomed;
    }

    method DeleteForUser(user: Uid) returns (n: nat)
      modifies this
      ensures (rows, Number(n)) == PgSess(old(rows), DeleteSessFor(user))
    {
      var doomed := set k | k in rows && user != "" && rows[k].payload.user == Some(user);
      assert doomed == DoomedRows(rows, IsFor(user));
      n := DeleteAll(doomed);
    }

    method DeleteForInstallation(iid: Iid) returns (n: nat)
      modifies this
      ensures (rows, Number(n)) == PgSess(old(rows), DeleteSessOf(iid))
    {
      var doomed := set k | k in rows && rows[k].payload.iid == Some(iid);
      assert doomed == DoomedRows(rows, IsOf(iid));
      n := DeleteAll(doomed);
    }

    method PurgeExpired(now: real) returns (expired: nat, revoked: nat)
      modifies this
      ensures (rows, Two(expired, revoked)) == PgSess(old(rows), PurgeSess(now))
      ensures expired + revoked == |old(rows)| - |rows|
    {
      rows, expired, revoked := PurgeRead(rows, now);
    }

    /** Marks the payload and the column of each row of the installation. */
    method SetUserIdForInstallation(iid: Iid, user: Uid) returns (n: nat)
      modifies this
      ensures (rows, Number(n)) == PgSess(old(rows), MarkSess(iid, user))
    {
      AllRowsMarked(rows, iid, user);
      rows, n := ChangeEach(rows, DoomedRows(rows, IsOf(iid)), IsRowOf(iid), ClaimRow(user));
    }
  }
}
