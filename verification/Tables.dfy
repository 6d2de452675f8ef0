/**
The backend's tables as values: installations, sessions, pending OAuth transactions,
users, and the three linked tables (connections, token rows, token owners).

Token rows are shared: the connections of several installations may point at one row.
`Drop` deletes a whole set of connections at once, together with the token rows that lose
their last reference; `DropOneMore` shows that deleting them one at a time, in any order,
comes to the same.
*/
module Tables {
  import opened Options

  type Iid = string
  type Uid = string
  type Provider = string

  datatype ConnKey = ConnKey(iid: Iid, provider: Provider)
  datatype TokKey = TokKey(provider: Provider, puid: string)

  /** `account` is the provider user id of the entry's account, `marker` its `user_id`. */
  datatype Entry = Entry(account: Option<string>, marker: Option<Uid>, obtainedAt: real)

  /** `issuedAt` is when the provider issued the pair; no stored row carries it. */
  datatype TokenPair = TokenPair(access: string, refresh: string, expiresIn: int, issuedAt: real)

  datatype Links = Links(conns: map<ConnKey, Entry>, tokens: map<TokKey, TokenPair>, owners: map<TokKey, Uid>)

  datatype Session = Session(installation: Option<Iid>, user: Option<Uid>)

  /** `installs` has an installation's revoked flag, `adopted` its user, `txns` a transaction's installation. */
  datatype Db = Db(links: Links, installs: map<Iid, bool>, adopted: map<Iid, Uid>,
                   sessions: map<string, Session>, txns: map<string, Iid>, users: set<Uid>)

  predicate KnownProvider(p: Provider) {
    p in {"twitch", "youtube", "kick", "facebook"}
  }

  /** The token row an entry points at. */
  function Ref(k: ConnKey, e: Entry): Option<TokKey> {
    match e.account
    case None => None
    case Some(a) => Some(TokKey(k.provider, a))
  }

  /** The connections pointing at a token row. */
  function Referencing(conns: map<ConnKey, Entry>, t: TokKey): set<ConnKey> {
    set k | k in conns && Ref(k, conns[k]) == Some(t)
  }

  /** The rows among `may` that lose their last reference when the connections `ks` go. */
  function Orphans(l: Links, ks: set<ConnKey>, may: set<TokKey>): set<TokKey> {
    set t | t in l.tokens && t in may && Referencing(l.conns, t) * ks != {} && Referencing(l.conns, t) <= ks
  }

  function Without(l: Links, ks: set<ConnKey>, ts: set<TokKey>): Links {
    Links(l.conns - ks, l.tokens - ts, l.owners - ts)
  }

  /** Deletes the connections `ks`, and the rows among `may` that nothing references any more. */
  function Drop(l: Links, ks: set<ConnKey>, may: set<TokKey>): Links {
    Without(l, ks, Orphans(l, ks, may))
  }

  /** Every connection's token row exists. */
  ghost predicate Linked(l: Links) {
    forall k :: k in l.conns && l.conns[k].account.Some? ==> TokKey(k.provider, l.conns[k].account.value) in l.tokens
  }

  /** Owners are recorded only for rows that exist. */
  ghost predicate OwnersHaveRows(l: Links) {
    l.owners.Keys <= l.tokens.Keys
  }

  lemma ReferencingLess(l: Links, ks: set<ConnKey>, t: TokKey)
    ensures Referencing(l.conns - ks, t) == Referencing(l.conns, t) - ks
  {
  }

  /** Once `done` is dropped, dropping `k` as well orphans exactly what dropping both together adds. */
  lemma OrphansOneMore(l: Links, done: set<ConnKey>, k: ConnKey, may: set<TokKey>)
    requires k !in done
    ensures Orphans(l, done + {k}, may)
         == Orphans(l, done, may) + Orphans(Drop(l, done, may), {k}, may)
    ensures Orphans(l, done, may) !! Orphans(Drop(l, done, may), {k}, may)
  {
    forall t
      ensures t in Orphans(l, done + {k}, may)
         <==> t in Orphans(l, done, may) + Orphans(Drop(l, done, may), {k}, may)
    {
      ReferencingLess(l, done, t);
      var r := Referencing(l.conns, t);
      if k in r {
        assert k in r * (done + {k});
        assert k in (r - done) * {k};
      } else {
        assert r * (done + {k}) == r * done;
        assert (r - done) * {k} == {};
      }
    }
  }

  /** Deleting one connection after the others equals deleting them all at once. */
  lemma DropOneMore(l: Links, done: set<ConnKey>, k: ConnKey, may: set<TokKey>)
    requires k !in done
    ensures Drop(Drop(l, done, may), {k}, may) == Drop(l, done + {k}, may)
    ensures |Orphans(l, done + {k}, may)|
         == |Orphans(l, done, may)| + |Orphans(Drop(l, done, may), {k}, may)|
  {
    OrphansOneMore(l, done, k, may);
    var a, b := Orphans(l, done, may), Orphans(Drop(l, done, may), {k}, may);
    MinusTwice(l.conns, done, {k});
    MinusTwice(l.tokens, a, b);
    MinusTwice(l.owners, a, b);
  }

  lemma MinusTwice<K, V>(m: map<K, V>, a: set<K>, b: set<K>)
    ensures m - a - b == m - (a + b)
  {
  }

  lemma SizeWithout<K, V>(m: map<K, V>, a: set<K>)
    requires a <= m.Keys
    ensures |m - a| == |m| - |a|
  {
    assert (m - a).Keys == m.Keys - a;
    assert |m| == |m.Keys| && |m - a| == |(m - a).Keys|;
  }

  /** `m` once the rows of `a` and `b` but those in `todo` have been removed, and how many of either. */
  function Sifted<V>(m: map<string, V>, a: set<string>, b: set<string>, todo: set<string>): (map<string, V>, nat, nat) {
    (m - (a + b - todo), |a - todo|, |b - todo|)
  }

  lemma SiftedNone<V>(m: map<string, V>, a: set<string>, b: set<string>, todo: set<string>)
    requires a + b <= todo
    ensures Sifted(m, a, b, todo) == (m, 0, 0)
  {
    assert a - todo == {};
    assert b - todo == {};
    assert a + b - todo == {};
    assert m - {} == m;
  }

  lemma OneLess(a: set<string>, todo: set<string>, k: string)
    requires k in todo
    ensures a - (todo - {k}) == if k in a then a - todo + {k} else a - todo
    ensures |a - (todo - {k})| == |a - todo| + if k in a then 1 else 0
  {
    assert a - (todo - {k}) == if k in a then a - todo + {k} else a - todo;
  }

  /** Looking at one row more. */
  lemma SiftedNext<V>(m: map<string, V>, a: set<string>, b: set<string>, todo: set<string>,
                      k: string)
    requires k in todo && k in m && a !! b
    ensures var (left, n, n') := Sifted(m, a, b, todo);
            && k in left && left[k] == m[k]
            && Sifted(m, a, b, todo - {k})
               == if k in a then (left - {k}, n + 1, n') else if k in b then (left - {k}, n, n' + 1) else (left, n, n')
  {
    OneLess(a, todo, k);
    OneLess(b, todo, k);
    OneLess(a + b, todo, k);
    MinusTwice(m, a + b - todo, {k});
  }

  lemma WithoutNone(a: set<string>)
    ensures a - {} == a
  {
  }

  /** The two counts are of different rows, and together of all that are gone. */
  lemma SiftedAll<V>(m: map<string, V>, a: set<string>, b: set<string>)
    requires a + b <= m.Keys && a !! b
    ensures Sifted(m, a, b, {}) == (m - (a + b), |a|, |b|)
    ensures |a| + |b| == |m| - |m - (a + b)|
  {
    WithoutNone(a);
    WithoutNone(b);
    WithoutNone(a + b);
    SizeWithout(m, a + b);
  }

  /** No deletion ever takes a row from under a surviving connection. */
  lemma DropKeepsLinked(l: Links, ks: set<ConnKey>, may: set<TokKey>)
    ensures Linked(l) ==> Linked(Drop(l, ks, may))
    ensures OwnersHaveRows(l) ==> OwnersHaveRows(Drop(l, ks, may))
  {
    if Linked(l) {
      var d := Drop(l, ks, may);
      forall k | k in d.conns && d.conns[k].account.Some?
        ensures TokKey(k.provider, d.conns[k].account.value) in d.tokens
      {
        assert k in Referencing(l.conns, TokKey(k.provider, l.conns[k].account.value));
      }
    }
  }

  /** What a deletion leaves alone: other connections, and the rows they point at, with their owners. */
  lemma DropSpares(l: Links, ks: set<ConnKey>, may: set<TokKey>, k: ConnKey)
    requires k in l.conns && k !in ks
    ensures var d := Drop(l, ks, may);
            && k in d.conns && d.conns[k] == l.conns[k]
            && (Ref(k, l.conns[k]).Some? ==>
                  var t := Ref(k, l.conns[k]).value;
                  && (t in l.tokens ==> t in d.tokens && d.tokens[t] == l.tokens[t])
                  && (t in d.owners <==> t in l.owners) && (t in l.owners ==> d.owners[t] == l.owners[t]))
  {
    if Ref(k, l.conns[k]).Some? {
      assert k in Referencing(l.conns, Ref(k, l.conns[k]).value);
    }
  }
}
