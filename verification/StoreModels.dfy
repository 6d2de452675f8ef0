/**
The two implementations of the backend's stores, as transition functions over their own
representations: dictionaries with separate owner maps in memory, rows with an owner or
user column in PostgreSQL.  A run is any sequence of store calls; the theorem is that both
implementations answer every call of every run alike.
*/
module StoreModels {
  import opened Options
  import opened Tables
  import opened Auth
  import opened OAuth

  // ------------------------------------------------------------ tokens

  datatype TokCall =
    | SaveTok(t: TokKey, pair: TokenPair) | LoadTok(t: TokKey) | DeleteTok(t: TokKey)
    | SetOwner(t: TokKey, owner: Uid) | OwnerOf(t: TokKey)

  datatype Answer =
    | Nothing | Flag(b: bool) | Number(n: nat) | Two(expired: nat, other: nat)
    | Pair(pair: Option<TokenPair>) | User(user: Option<Uid>) | Row(payload: Option<Payload>)
    | Pending(txn: Option<Txn>) | Found(ids: set<string>) | Linked(entry: Option<Entry>)
    | Installed(install: Option<Install>) | Iids(iids: set<Iid>) | Providers(names: set<Provider>)
    | Keys(keys: set<ConnKey>) | Accounts(accounts: set<TokKey>)

  datatype MemTokens = MemTokens(data: map<TokKey, TokenPair>, owners: map<TokKey, Uid>)

  datatype TokRow = TokRow(pair: TokenPair, owner: Option<Uid>)

  type PgTokens = map<TokKey, TokRow>

  function Get<K, V>(m: map<K, V>, k: K): Option<V> {
    if k in m then Some(m[k]) else None
  }

  function MemTok(m: MemTokens, c: TokCall): (MemTokens, Answer) {
    match c
    case SaveTok(t, pair) => (m.(data := m.data[t := pair]), Nothing)
    case LoadTok(t) => (m, Pair(Get(m.data, t)))
    case DeleteTok(t) => (MemTokens(m.data - {t}, m.owners - {t}), Nothing)
    case SetOwner(t, owner) =>
      if t !in m.data then (m, Flag(false)) else (m.(owners := m.owners[t := owner]), Flag(true))
    case OwnerOf(t) => (m, User(Get(m.owners, t)))
  }

  /** An insert that meets an existing row replaces the pair and keeps the owner. */
  function PgTok(p: PgTokens, c: TokCall): (PgTokens, Answer) {
    match c
    case SaveTok(t, pair) => (p[t := TokRow(pair, if t in p then p[t].owner else None)], Nothing)
    case LoadTok(t) => (p, Pair(if t in p then Some(p[t].pair) else None))
    case DeleteTok(t) => (p - {t}, Nothing)
    case SetOwner(t, owner) =>
      if t in p then (p[t := p[t].(owner := Some(owner))], Flag(true)) else (p, Flag(false))
    case OwnerOf(t) => (p, User(if t in p then p[t].owner else None))
  }

  /** Owners are of existing rows, and the columns hold what the two maps hold. */
  ghost predicate SameTokens(m: MemTokens, p: PgTokens) {
    && m.owners.Keys <= m.data.Keys && p.Keys == m.data.Keys
    && forall t :: t in p ==> p[t] == TokRow(m.data[t], Get(m.owners, t))
  }

  lemma TokensAgree(m: MemTokens, p: PgTokens, c: TokCall)
    requires SameTokens(m, p)
    ensures SameTokens(MemTok(m, c).0, PgTok(p, c).0) && MemTok(m, c).1 == PgTok(p, c).1
  {
  }

  /** The pair a row holds after these calls: the last one saved, unless the row was deleted since. */
  function LastSaved(run: seq<TokCall>, t: TokKey): Option<TokenPair>
    decreases |run|
  {
    if run == [] then None
    else
      match run[|run| - 1]
      case SaveTok(u, pair) => if u == t then Some(pair) else LastSaved(run[..|run| - 1], t)
      case DeleteTok(u) => if u == t then None else LastSaved(run[..|run| - 1], t)
      case _ => LastSaved(run[..|run| - 1], t)
  }

  /** Its owner: the last one set while there was a row, unless the row was deleted since; saving keeps it. */
  function LastOwner(run: seq<TokCall>, t: TokKey): Option<Uid>
    decreases |run|
  {
    if run == [] then None
    else
      var before := run[..|run| - 1];
      match run[|run| - 1]
      case SetOwner(u, owner) => if u == t && LastSaved(before, t).Some? then Some(owner) else LastOwner(before, t)
      case DeleteTok(u) => if u == t then None else LastOwner(before, t)
      case _ => LastOwner(before, t)
  }

  function TokensAfter(run: seq<TokCall>): MemTokens
    decreases |run|
  {
    if run == [] then MemTokens(map[], map[]) else MemTok(TokensAfter(run[..|run| - 1]), run[|run| - 1]).0
  }

  lemma {:induction false} TokensHistory(run: seq<TokCall>, t: TokKey)
    ensures Get(TokensAfter(run).data, t) == LastSaved(run, t) && Get(TokensAfter(run).owners, t) == LastOwner(run, t)
    decreases |run|
  {
    if run != [] {
      TokensHistory(run[..|run| - 1], t);
    }
  }

  /** What the token store answers after any calls. */
  lemma {:induction false} TokensAnswer(run: seq<TokCall>, t: TokKey, owner: Uid)
    ensures MemTok(TokensAfter(run), LoadTok(t)).1 == Pair(LastSaved(run, t))
    ensures MemTok(TokensAfter(run), OwnerOf(t)).1 == User(LastOwner(run, t))
    ensures MemTok(TokensAfter(run), SetOwner(t, owner)).1 == Flag(LastSaved(run, t).Some?)
  {
    TokensHistory(run, t);
  }

  // ------------------------------------------------------------ installations

  datatype Install = Install(createdAt: string, revoked: bool, secret: string)

  datatype InstCall =
    | CreateInst(iid: Iid, install: Install) | LoadInst(iid: Iid) | RevokeInst(iid: Iid) | DeleteInst(iid: Iid)
    | SetUser(iid: Iid, user: Uid) | GetUser(iid: Iid) | InstsOf(user: Uid)

  datatype MemInsts = MemInsts(data: map<Iid, Install>, owners: map<Iid, Uid>)

  datatype InstRow = InstRow(install: Install, user: Option<Uid>)

  type PgInsts = map<Iid, InstRow>

  function MemInst(m: MemInsts, c: InstCall): (MemInsts, Answer) {
    match c
    case CreateInst(iid, install) => (m.(data := m.data[iid := install]), Nothing)
    case LoadInst(iid) => (m, Installed(Get(m.data, iid)))
    case RevokeInst(iid) =>
      (if iid in m.data then m.(data := m.data[iid := m.data[iid].(revoked := true)]) else m, Nothing)
    case DeleteInst(iid) => (MemInsts(m.data - {iid}, m.owners - {iid}), Nothing)
    case SetUser(iid, user) =>
      if iid !in m.data then (m, Flag(false)) else (m.(owners := m.owners[iid := user]), Flag(true))
    case GetUser(iid) => (m, User(Get(m.owners, iid)))
    case InstsOf(user) =>
      (m, Iids(if user == "" then {} else set i | i in m.owners && m.owners[i] == user && i in m.data))
  }

  function PgInst(p: PgInsts, c: InstCall): (PgInsts, Answer) {
    match c
    case CreateInst(iid, install) => (p[iid := InstRow(install, if iid in p then p[iid].user else None)], Nothing)
    case LoadInst(iid) => (p, Installed(if iid in p then Some(p[iid].install) else None))
    case RevokeInst(iid) =>
      (if iid in p then p[iid := p[iid].(install := p[iid].install.(revoked := true))] else p, Nothing)
    case DeleteInst(iid) => (p - {iid}, Nothing)
    case SetUser(iid, user) =>
      if iid in p then (p[iid := p[iid].(user := Some(user))], Flag(true)) else (p, Flag(false))
    case GetUser(iid) => (p, User(if iid in p then p[iid].user else None))
    case InstsOf(user) => (p, Iids(if user == "" then {} else set i | i in p && p[i].user == Some(user)))
  }

  ghost predicate SameInsts(m: MemInsts, p: PgInsts) {
    && m.owners.Keys <= m.data.Keys && p.Keys == m.data.Keys
    && forall i :: i in p ==> p[i] == InstRow(m.data[i], Get(m.owners, i))
  }

  lemma InstsAgree(m: MemInsts, p: PgInsts, c: InstCall)
    requires SameInsts(m, p)
    ensures SameInsts(MemInst(m, c).0, PgInst(p, c).0) && MemInst(m, c).1 == PgInst(p, c).1
  {
  }

  /** The installation after these calls: as last created, revoked if that was done since, gone if deleted since. */
  function LastInstall(run: seq<InstCall>, iid: Iid): Option<Install>
    decreases |run|
  {
    if run == [] then None
    else
      var before := run[..|run| - 1];
      match run[|run| - 1]
      case CreateInst(i, install) => if i == iid then Some(install) else LastInstall(before, iid)
      case DeleteInst(i) => if i == iid then None else LastInstall(before, iid)
      case RevokeInst(i) =>
        if i == iid && LastInstall(before, iid).Some? then Some(LastInstall(before, iid).value.(revoked := true))
        else LastInstall(before, iid)
      case _ => LastInstall(before, iid)
  }

  /** Its user: the last one set while it was there, also if it was created again since, but not if deleted. */
  function LastUser(run: seq<InstCall>, iid: Iid): Option<Uid>
    decreases |run|
  {
    if run == [] then None
    else
      var before := run[..|run| - 1];
      match run[|run| - 1]
      case SetUser(i, user) => if i == iid && LastInstall(before, iid).Some? then Some(user) else LastUser(before, iid)
      case DeleteInst(i) => if i == iid then None else LastUser(before, iid)
      case _ => LastUser(before, iid)
  }

  function InstsAfter(run: seq<InstCall>): MemInsts
    decreases |run|
  {
    if run == [] then MemInsts(map[], map[]) else MemInst(InstsAfter(run[..|run| - 1]), run[|run| - 1]).0
  }

  lemma {:induction false} InstsHistory(run: seq<InstCall>, iid: Iid)
    ensures Get(InstsAfter(run).data, iid) == LastInstall(run, iid)
    ensures Get(InstsAfter(run).owners, iid) == LastUser(run, iid)
    ensures LastUser(run, iid).Some? ==> LastInstall(run, iid).Some?
    decreases |run|
  {
    if run != [] {
      InstsHistory(run[..|run| - 1], iid);
    }
  }

  /** What the installation store answers after any calls. */
  lemma {:induction false} InstsAnswer(run: seq<InstCall>, iid: Iid, user: Uid)
    ensures MemInst(InstsAfter(run), LoadInst(iid)).1 == Installed(LastInstall(run, iid))
    ensures MemInst(InstsAfter(run), GetUser(iid)).1 == User(LastUser(run, iid))
    ensures MemInst(InstsAfter(run), SetUser(iid, user)).1 == Flag(LastInstall(run, iid).Some?)
    ensures iid in MemInst(InstsAfter(run), InstsOf(user)).1.iids <==> user != "" && LastUser(run, iid) == Some(user)
  {
    InstsHistory(run, iid);
  }

  // ------------------------------------------------------------ sessions

  datatype SessCall =
    | SaveSess(id: string, payload: Payload) | LoadSess(id: string) | DeleteSess(id: string)
    | DeleteSessOf(iid: Iid) | DeleteSessFor(user: Uid) | MarkSess(iid: Iid, user: Uid) | PurgeSess(now: real)

  datatype SessRow = SessRow(payload: Payload, user: Option<Uid>)

  type PgSessions = map<string, SessRow>

  function Doomed(s: Sessions, dooms: Payload -> bool): set<string> {
    set k | k in s && dooms(s[k])
  }

  function DoomedRows(s: PgSessions, dooms: Payload -> bool): set<string> {
    set k | k in s && dooms(s[k].payload)
  }

  function IsOf(iid: Iid): Payload -> bool {
    (p: Payload) => p.iid == Some(iid)
  }

  function IsFor(user: Uid): Payload -> bool {
    (p: Payload) => user != "" && p.user == Some(user)
  }

  function IsExpired(now: real): Payload -> bool {
    (p: Payload) => p.expiresAt <= now
  }

  function IsRevoked(now: real): Payload -> bool {
    (p: Payload) => p.expiresAt > now && p.revoked
  }

  function MemSess(s: Sessions, c: SessCall): (Sessions, Answer) {
    match c
    case SaveSess(id, payload) => (s[id := payload], Nothing)
    case LoadSess(id) => (s, Row(Get(s, id)))
    case DeleteSess(id) => (s - {id}, Nothing)
    case DeleteSessOf(iid) =>
      var doomed := Doomed(s, IsOf(iid));
      (s - doomed, Number(|doomed|))
    case DeleteSessFor(user) =>
      var doomed := Doomed(s, IsFor(user));
      (s - doomed, Number(|doomed|))
    case MarkSess(iid, user) =>
      (map k | k in s :: if s[k].iid == Some(iid) then s[k].(user := Some(user)) else s[k],
       Number(|Doomed(s, IsOf(iid))|))
    case PurgeSess(now) =>
      (s - (Doomed(s, IsExpired(now)) + Doomed(s, IsRevoked(now))),
       Two(|Doomed(s, IsExpired(now))|, |Doomed(s, IsRevoked(now))|))
  }

  /** Saving writes the user column from the payload; adopting writes both. */
  function PgSess(s: PgSessions, c: SessCall): (PgSessions, Answer) {
    match c
    case SaveSess(id, payload) => (s[id := SessRow(payload, payload.user)], Nothing)
    case LoadSess(id) => (s, Row(if id in s then Some(s[id].payload) else None))
    case DeleteSess(id) => (s - {id}, Nothing)
    case DeleteSessOf(iid) =>
      var doomed := DoomedRows(s, IsOf(iid));
      (s - doomed, Number(|doomed|))
    case DeleteSessFor(user) =>
      var doomed := DoomedRows(s, IsFor(user));
      (s - doomed, Number(|doomed|))
    case MarkSess(iid, user) =>
      (map k | k in s :: if s[k].payload.iid == Some(iid)
                         then SessRow(s[k].payload.(user := Some(user)), Some(user)) else s[k],
       Number(|DoomedRows(s, IsOf(iid))|))
    case PurgeSess(now) =>
      (s - (DoomedRows(s, IsExpired(now)) + DoomedRows(s, IsRevoked(now))),
       Two(|DoomedRows(s, IsExpired(now))|, |DoomedRows(s, IsRevoked(now))|))
  }

  /** Same payloads, and the user column mirrors the payload's user. */
  ghost predicate SameSessions(m: Sessions, p: PgSessions) {
    p.Keys == m.Keys && forall k :: k in p ==> p[k] == SessRow(m[k], m[k].user)
  }

  lemma SameDoomed(m: Sessions, p: PgSessions, dooms: Payload -> bool)
    requires SameSessions(m, p)
    ensures Doomed(m, dooms) == DoomedRows(p, dooms)
  {
  }

  lemma SessionsAgree(m: Sessions, p: PgSessions, c: SessCall)
    requires SameSessions(m, p)
    ensures SameSessions(MemSess(m, c).0, PgSess(p, c).0) && MemSess(m, c).1 == PgSess(p, c).1
  {
    match c
    case DeleteSessOf(iid) => SameDoomed(m, p, IsOf(iid));
    case DeleteSessFor(user) => SameDoomed(m, p, IsFor(user));
    case MarkSess(iid, user) => SameDoomed(m, p, IsOf(iid));
    case PurgeSess(now) =>
      SameDoomed(m, p, IsExpired(now));
      SameDoomed(m, p, IsRevoked(now));
    case _ =>
  }

  /** What each call leaves of the session `k`. */
  lemma SessionAfter(s: Sessions, c: SessCall, k: string)
    ensures var t := MemSess(s, c).0;
            match c
            case SaveSess(id, payload) => Get(t, k) == if k == id then Some(payload) else Get(s, k)
            case LoadSess(_) => t == s
            case DeleteSess(id) => Get(t, k) == if k == id then None else Get(s, k)
            case DeleteSessOf(iid) => Get(t, k) == if k in s && s[k].iid == Some(iid) then None else Get(s, k)
            case DeleteSessFor(user) =>
              Get(t, k) == if user != "" && k in s && s[k].user == Some(user) then None else Get(s, k)
            case MarkSess(iid, user) =>
              Get(t, k) == if k in s && s[k].iid == Some(iid) then Some(s[k].(user := Some(user))) else Get(s, k)
            case PurgeSess(now) =>
              Get(t, k) == if k in s && (s[k].expiresAt <= now || s[k].revoked) then None else Get(s, k)
  {
  }

  lemma DoomedCount(s: Sessions, dooms: Payload -> bool)
    ensures |Doomed(s, dooms)| == |s| - |s - Doomed(s, dooms)|
  {
    SizeWithout(s, Doomed(s, dooms));
  }

  /** Deletions answer by how much the table shrank. */
  lemma DeletionAnswer(s: Sessions, iid: Iid, user: Uid)
    ensures MemSess(s, DeleteSessOf(iid)).1 == Number(|s| - |MemSess(s, DeleteSessOf(iid)).0|)
    ensures MemSess(s, DeleteSessFor(user)).1 == Number(|s| - |MemSess(s, DeleteSessFor(user)).0|)
  {
    DoomedCount(s, IsOf(iid));
    DoomedCount(s, IsFor(user));
  }

  /** Adoption answers how many sessions the installation has, and a load what is stored. */
  lemma SessionAnswer(s: Sessions, id: string, iid: Iid, user: Uid)
    ensures MemSess(s, LoadSess(id)).1 == Row(Get(s, id))
    ensures MemSess(s, MarkSess(iid, user)).1 == Number(|set k | k in s && s[k].iid == Some(iid)|)
  {
    assert (set k | k in s && s[k].iid == Some(iid)) == Doomed(s, IsOf(iid));
  }

  /** A purge counts the expired, expired and revoked ones among them, and the rest of what is gone. */
  lemma PurgeAnswer(s: Sessions, now: real)
    ensures var (t, a) := MemSess(s, PurgeSess(now));
            a.Two? && a.expired == |set k | k in s && s[k].expiresAt <= now| && a.expired + a.other == |s| - |t|
  {
    var a, b := Doomed(s, IsExpired(now)), Doomed(s, IsRevoked(now));
    assert (set k | k in s && s[k].expiresAt <= now) == a;
    assert a !! b;
    SizeWithout(s, a + b);
  }

  // ------------------------------------------------------------ connections

  datatype ConnCall =
    | SaveConn(k: ConnKey, entry: Entry) | LoadConn(k: ConnKey) | DeleteConn(k: ConnKey)
    | ReferencedBy(t: TokKey) | ProvidersOf(iid: Iid) | ConnsFor(user: Uid, iids: set<Iid>)
    | MarkConns(iid: Iid, user: Uid)

  type MemConns = map<ConnKey, Entry>

  datatype ConnRow = ConnRow(entry: Entry, user: Option<Uid>)

  type PgConns = map<ConnKey, ConnRow>

  /** The accounts, with a non-empty id, of an installation's entries. */
  predicate Names(k: ConnKey, e: Entry, iid: Iid) {
    k.iid == iid && e.account.Some? && e.account.value != ""
  }

  predicate BelongsTo(k: ConnKey, e: Entry, user: Uid, iids: set<Iid>) {
    user != "" && (e.marker == Some(user) || (e.marker == None && k.iid in iids))
  }

  function MemConn(m: MemConns, c: ConnCall): (MemConns, Answer) {
    match c
    case SaveConn(k, entry) => (m[k := entry], Nothing)
    case LoadConn(k) => (m, Linked(Get(m, k)))
    case DeleteConn(k) => (m - {k}, Nothing)
    case ReferencedBy(t) => (m, Iids(set k | k in m && Ref(k, m[k]) == Some(t) :: k.iid))
    case ProvidersOf(iid) => (m, Providers(set k | k in m && k.iid == iid :: k.provider))
    case ConnsFor(user, iids) => (m, Keys(set k | k in m && BelongsTo(k, m[k], user, iids)))
    case MarkConns(iid, user) =>
      (map k | k in m :: if k.iid == iid then m[k].(marker := Some(user)) else m[k],
       Accounts(set k | k in m && Names(k, m[k], iid) :: TokKey(k.provider, m[k].account.value)))
  }

  /** Saving leaves the user column of an existing row as it is; nothing reads that column. */
  function PgConn(p: PgConns, c: ConnCall): (PgConns, Answer) {
    match c
    case SaveConn(k, entry) => (p[k := ConnRow(entry, if k in p then p[k].user else None)], Nothing)
    case LoadConn(k) => (p, Linked(if k in p then Some(p[k].entry) else None))
    case DeleteConn(k) => (p - {k}, Nothing)
    case ReferencedBy(t) => (p, Iids(set k | k in p && Ref(k, p[k].entry) == Some(t) :: k.iid))
    case ProvidersOf(iid) => (p, Providers(set k | k in p && k.iid == iid :: k.provider))
    case ConnsFor(user, iids) => (p, Keys(set k | k in p && BelongsTo(k, p[k].entry, user, iids)))
    case MarkConns(iid, user) =>
      (map k | k in p :: if k.iid == iid then ConnRow(p[k].entry.(marker := Some(user)), Some(user)) else p[k],
       Accounts(set k | k in p && Names(k, p[k].entry, iid) :: TokKey(k.provider, p[k].entry.account.value)))
  }

  ghost predicate SameConns(m: MemConns, p: PgConns) {
    p.Keys == m.Keys && forall k :: k in p ==> p[k].entry == m[k]
  }

  lemma ConnsAgree(m: MemConns, p: PgConns, c: ConnCall)
    requires SameConns(m, p)
    ensures SameConns(MemConn(m, c).0, PgConn(p, c).0) && MemConn(m, c).1 == PgConn(p, c).1
  {
  }

  /** What each call leaves of the connection `k`. */
  lemma ConnectionAfter(m: MemConns, c: ConnCall, k: ConnKey)
    ensures var t := MemConn(m, c).0;
            match c
            case SaveConn(q, entry) => Get(t, k) == if k == q then Some(entry) else Get(m, k)
            case DeleteConn(q) => Get(t, k) == if k == q then None else Get(m, k)
            case MarkConns(iid, user) =>
              Get(t, k) == if k in m && k.iid == iid then Some(m[k].(marker := Some(user))) else Get(m, k)
            case _ => t == m
  {
  }

  /** What the look-ups answer: who is in the list, and nobody else is. */
  lemma ConnectionAnswer(m: MemConns, c: ConnCall, i: Iid, p: Provider, a: string)
    ensures var k, answer := ConnKey(i, p), MemConn(m, c).1;
            match c
            case LoadConn(q) => answer == Linked(Get(m, q))
            case ReferencedBy(t) =>
              p == t.provider ==> (i in answer.iids <==> k in m && m[k].account == Some(t.puid))
            case ProvidersOf(iid) => i == iid ==> (p in answer.names <==> k in m)
            case ConnsFor(user, iids) =>
              k in answer.keys
              <==> user != "" && k in m && (m[k].marker == Some(user) || (m[k].marker == None && i in iids))
            case MarkConns(iid, _) =>
              i == iid ==> (TokKey(p, a) in answer.accounts <==> a != "" && k in m && m[k].account == Some(a))
            case _ => answer == Nothing
  {
    if c.MarkConns? && i == c.iid && a != "" && ConnKey(i, p) in m && m[ConnKey(i, p)].account == Some(a) {
      assert Names(ConnKey(i, p), m[ConnKey(i, p)], c.iid);
    }
  }

  // ------------------------------------------------------------ transactions

  datatype TxnCall =
    | SaveTxn(id: string, x: Txn) | LoadTxn(id: string) | ConsumeTxn(id: string, now: real)
    | FindState(state: string, now: real) | DeleteTxnsOf(iid: Iid) | PurgeTxns(now: real)

  function MemTxn(m: Txns, c: TxnCall): (Txns, Answer) {
    match c
    case SaveTxn(id, x) => (m[id := x], Nothing)
    case LoadTxn(id) => (m, Pending(Get(m, id)))
    case ConsumeTxn(id, now) => (Consume(m, id, now).1, Pending(Consume(m, id, now).0))
    case FindState(state, now) => (m, Found(Candidates(m, state, now)))
    case DeleteTxnsOf(iid) =>
      var doomed := set id | id in m && m[id].iid == iid;
      (m - doomed, Number(|doomed|))
    case PurgeTxns(now) => (m - (Expired(m, now) + Spent(m, now)), Two(|Expired(m, now)|, |Spent(m, now)|))
  }

  /** Consuming is a load followed by a save of the whole row. */
  function PgTxn(p: Txns, c: TxnCall): (Txns, Answer)
    decreases c.ConsumeTxn?
  {
    match c
    case ConsumeTxn(id, now) =>
      var found := PgTxn(p, LoadTxn(id)).1.txn;
      if found == None || found.value.consumed then (p, Pending(None))
      else if now >= found.value.expiresAt then (p - {id}, Pending(None))
      else
        var x := found.value.(consumed := true);
        (PgTxn(p, SaveTxn(id, x)).0, Pending(Some(x)))
    case SaveTxn(id, x) => (p[id := x], Nothing)
    case LoadTxn(id) => (p, Pending(Get(p, id)))
    case FindState(state, now) =>
      (p, Found(set id | id in p && state != "" && p[id].state == state && !p[id].consumed && now < p[id].expiresAt))
    case DeleteTxnsOf(iid) =>
      var doomed := set id | id in p && p[id].iid == iid;
      (p - doomed, Number(|doomed|))
    case PurgeTxns(now) => (p - (Expired(p, now) + Spent(p, now)), Two(|Expired(p, now)|, |Spent(p, now)|))
  }

  lemma TxnsAgree(m: Txns, c: TxnCall)
    ensures PgTxn(m, c) == MemTxn(m, c)
  {
    if c.FindState? {
      assert (set id | id in m && c.state != "" && m[id].state == c.state && !m[id].consumed && c.now < m[id].expiresAt)
          == Candidates(m, c.state, c.now);
    }
  }

  /** Which of several matches a lookup by state returns depends on the store; distinct states leave no choice. */
  ghost predicate DistinctStates(m: Txns) {
    forall a, b :: a in m && b in m && m[a].state == m[b].state ==> a == b
  }

  lemma OneCandidate(m: Txns, state: string, now: real, a: string, b: string)
    requires DistinctStates(m) && a in Candidates(m, state, now) && b in Candidates(m, state, now)
    ensures a == b
  {
  }

  lemma StatesStayDistinct(m: Txns, c: TxnCall)
    requires DistinctStates(m)
    requires c.SaveTxn? ==> forall id :: id in m && m[id].state == c.x.state ==> id == c.id
    ensures DistinctStates(MemTxn(m, c).0)
  {
  }

  // ------------------------------------------------------------ all stores, all runs

  datatype Call =
    | OnTok(tok: TokCall) | OnInst(inst: InstCall) | OnSess(sess: SessCall) | OnConn(conn: ConnCall)
    | OnTxn(txn: TxnCall)

  datatype Mem = Mem(tokens: MemTokens, insts: MemInsts, sessions: Sessions, conns: MemConns, txns: Txns)

  datatype Pg = Pg(tokens: PgTokens, insts: PgInsts, sessions: PgSessions, conns: PgConns, txns: Txns)

  function MemStep(m: Mem, c: Call): (Mem, Answer) {
    match c
    case OnTok(c) => var (s, a) := MemTok(m.tokens, c); (m.(tokens := s), a)
    case OnInst(c) => var (s, a) := MemInst(m.insts, c); (m.(insts := s), a)
    case OnSess(c) => var (s, a) := MemSess(m.sessions, c); (m.(sessions := s), a)
    case OnConn(c) => var (s, a) := MemConn(m.conns, c); (m.(conns := s), a)
    case OnTxn(c) => var (s, a) := MemTxn(m.txns, c); (m.(txns := s), a)
  }

  function PgStep(p: Pg, c: Call): (Pg, Answer) {
    match c
    case OnTok(c) => var (s, a) := PgTok(p.tokens, c); (p.(tokens := s), a)
    case OnInst(c) => var (s, a) := PgInst(p.insts, c); (p.(insts := s), a)
    case OnSess(c) => var (s, a) := PgSess(p.sessions, c); (p.(sessions := s), a)
    case OnConn(c) => var (s, a) := PgConn(p.conns, c); (p.(conns := s), a)
    case OnTxn(c) => var (s, a) := PgTxn(p.txns, c); (p.(txns := s), a)
  }

  ghost predicate Same(m: Mem, p: Pg) {
    SameTokens(m.tokens, p.tokens) && SameInsts(m.insts, p.insts) && SameSessions(m.sessions, p.sessions)
    && SameConns(m.conns, p.conns) && m.txns == p.txns
  }

  lemma StepAgrees(m: Mem, p: Pg, c: Call)
    requires Same(m, p)
    ensures Same(MemStep(m, c).0, PgStep(p, c).0) && MemStep(m, c).1 == PgStep(p, c).1
  {
    match c
    case OnTok(c) => TokensAgree(m.tokens, p.tokens, c);
    case OnInst(c) => InstsAgree(m.insts, p.insts, c);
    case OnSess(c) => SessionsAgree(m.sessions, p.sessions, c);
    case OnConn(c) => ConnsAgree(m.conns, p.conns, c);
    case OnTxn(c) => TxnsAgree(m.txns, c);
  }

  function MemAnswers(m: Mem, run: seq<Call>): seq<Answer>
    decreases |run|
  {
    if run == [] then [] else [MemStep(m, run[0]).1] + MemAnswers(MemStep(m, run[0]).0, run[1..])
  }

  function PgAnswers(p: Pg, run: seq<Call>): seq<Answer>
    decreases |run|
  {
    if run == [] then [] else [PgStep(p, run[0]).1] + PgAnswers(PgStep(p, run[0]).0, run[1..])
  }

  /** Whatever is called, in whatever order, both implementations answer alike. */
  lemma {:induction false} SameAnswers(m: Mem, p: Pg, run: seq<Call>)
    requires Same(m, p)
    ensures MemAnswers(m, run) == PgAnswers(p, run)
    decreases |run|
  {
    if run != [] {
      StepAgrees(m, p, run[0]);
      SameAnswers(MemStep(m, run[0]).0, PgStep(p, run[0]).0, run[1..]);
    }
  }
}
