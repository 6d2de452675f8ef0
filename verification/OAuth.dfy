/**
Connecting an account and keeping its token alive, for one provider.

A transaction is started with a secret verifier whose S256 challenge goes into the
authorization URL (RFC 7636, sections 4.2 and 4.6); the callback consumes it and exchanges
the code.  The main theorem speaks of whole runs of starts, callbacks, deletions and
purges: each transaction leads to at most one exchange, with what was stored for it.
*/
module OAuth {
  import opened Options
  import opened Tables

  const TRANSACTION_TTL := 600.0
  const REFRESH_MARGIN := 120

  datatype Txn = Txn(provider: Provider, iid: Iid, state: string, verifier: string, redirect: string,
                     expiresAt: real, consumed: bool)

  type Txns = map<string, Txn>

  /** A digest that only the verifier itself produces. */
  datatype Challenge = S256(verifier: string)

  datatype Url = Url(redirect: string, state: string, challenge: Challenge)

  /** A code presented to the provider, by which transaction, with which verifier and redirect. */
  datatype Exchange = Exchange(id: string, code: string, verifier: string, redirect: string, at: real)

  /** What the provider answers to an exchange and the identity request after it. */
  datatype Answer = NoTokens | NoIdentity | Granted(pair: TokenPair, account: string)

  datatype CallbackEnd = BadState | WrongProvider | Denied | MissingCode | Replayed | ProviderFailed | Connected

  // ------------------------------------------------------------ the transaction store

  predicate Live(x: Txn, now: real) {
    !x.consumed && now < x.expiresAt
  }

  /** The transactions a lookup by state may return; the empty state never matches. */
  function Candidates(txns: Txns, state: string, now: real): set<string> {
    if state == "" then {} else set id | id in txns && txns[id].state == state && Live(txns[id], now)
  }

  /** A lookup returns a candidate whenever there is one. */
  predicate Picks(pick: Option<string>, candidates: set<string>) {
    match pick
    case None => candidates == {}
    case Some(id) => id in candidates
  }

  function Consume(txns: Txns, id: string, now: real): (Option<Txn>, Txns) {
    if id !in txns || txns[id].consumed then (None, txns)
    else if now >= txns[id].expiresAt then (None, txns - {id})
    else
      var x := txns[id].(consumed := true);
      (Some(x), txns[id := x])
  }

  /** The rows a purge at `now` removes: the expired ones, and others already consumed. */
  function Expired(txns: Txns, now: real): set<string> {
    set id | id in txns && txns[id].expiresAt <= now
  }

  function Spent(txns: Txns, now: real): set<string> {
    set id | id in txns && txns[id].expiresAt > now && txns[id].consumed
  }

  // ------------------------------------------------------------ start and callback

  function Begun(p: Provider, iid: Iid, state: string, verifier: string, redirect: string, now: real): Txn {
    Txn(p, iid, state, verifier, redirect, now + TRANSACTION_TTL, false)
  }

  /**
  The callback for provider `p`, its state lookup having returned `pick`; the transaction
  is consumed at `now`.  The exchange, if any, carries what the consumed row holds.
  */
  function Callback(p: Provider, txns: Txns, pick: Option<string>, code: string, error: string, answer: Answer,
                    now: real)
    : (CallbackEnd, Txns, Option<Exchange>)
  {
    match pick
    case None => (BadState, txns, None)
    case Some(id) =>
      if id !in txns then (BadState, txns, None)
      else if txns[id].provider != p then (WrongProvider, txns, None)
      else if error != "" then (Denied, Consume(txns, id, now).1, None)
      else if code == "" then (MissingCode, txns, None)
      else
        var (x, txns') := Consume(txns, id, now);
        match x
        case None => (Replayed, txns', None)
        case Some(x) =>
          (if answer.Granted? then Connected else ProviderFailed, txns',
           Some(Exchange(id, code, x.verifier, x.redirect, now)))
  }

  /** A successful callback stores the pair and a fresh, unmarked connection. */
  function Saved(l: Links, k: ConnKey, account: string, pair: TokenPair, at: real): Links {
    Links(l.conns[k := Entry(Some(account), None, at)], l.tokens[TokKey(k.provider, account) := pair], l.owners)
  }

  // ------------------------------------------------------------ runs of the transaction store

  datatype Event =
    | Start(id: string, p: Provider, iid: Iid, state: string, verifier: string, redirect: string, now: real)
    | Arrive(p: Provider, state: string, pick: Option<string>, code: string, error: string, answer: Answer,
             found: real, now: real)
    | Delete(iid: Iid)
    | Purge(now: real)

  function StepTxns(txns: Txns, e: Event): Txns {
    match e
    case Start(id, p, iid, state, verifier, redirect, now) => txns[id := Begun(p, iid, state, verifier, redirect, now)]
    case Arrive(p, _, pick, code, error, answer, _, now) => Callback(p, txns, pick, code, error, answer, now).1
    case Delete(iid) => txns - set id | id in txns && txns[id].iid == iid
    case Purge(now) => txns - (Expired(txns, now) + Spent(txns, now))
  }

  function StepExchange(txns: Txns, e: Event): Option<Exchange> {
    match e
    case Arrive(p, _, pick, code, error, answer, _, now) => Callback(p, txns, pick, code, error, answer, now).2
    case _ => None
  }

  /** The event can happen: a new transaction's id is new, and a lookup answers what the store holds. */
  predicate Possible(txns: Txns, e: Event, used: set<string>) {
    match e
    case Start(id, _, _, _, _, _, _) => id !in used
    case Arrive(_, state, pick, _, _, _, found, now) => found <= now && Picks(pick, Candidates(txns, state, found))
    case _ => true
  }

  function UsedAfter(used: set<string>, e: Event): set<string> {
    if e.Start? then used + {e.id} else used
  }

  predicate PossibleRun(txns: Txns, used: set<string>, run: seq<Event>)
    decreases |run|
  {
    run == [] || (Possible(txns, run[0], used)
                  && PossibleRun(StepTxns(txns, run[0]), UsedAfter(used, run[0]), run[1..]))
  }

  /** The exchange each event of the run makes, if it makes one. */
  function Trace(txns: Txns, run: seq<Event>): (r: seq<Option<Exchange>>)
    ensures |r| == |run|
    decreases |run|
  {
    if run == [] then [] else [StepExchange(txns, run[0])] + Trace(StepTxns(txns, run[0]), run[1..])
  }

  /** The authorization URL that a start hands out. */
  function UrlOf(e: Event): Url
    requires e.Start?
  {
    Url(e.redirect, e.state, S256(e.verifier))
  }

  /** Transaction `id` holds what the start event stored, unless it is gone. */
  predicate HoldsStart(txns: Txns, s: Event) {
    s.Start? && (s.id in txns ==>
      txns[s.id].(consumed := false) == Begun(s.p, s.iid, s.state, s.verifier, s.redirect, s.now))
  }

  /** The exchange of event `e` belongs to start `s`. */
  predicate Answers(x: Exchange, e: Event, s: Event) {
    && s.Start? && e.Arrive? && x.id == s.id && x.code == e.code && x.code != "" && e.state == s.state && e.p == s.p
    && S256(x.verifier) == UrlOf(s).challenge && x.redirect == UrlOf(s).redirect && UrlOf(s).state == e.state
    && x.at == e.now && x.at < s.now + TRANSACTION_TTL
  }

  /** A transaction that has been exchanged, or is gone, never is again. */
  lemma {:induction false} NeverAgain(txns: Txns, used: set<string>, run: seq<Event>, id: string, j: nat)
    requires PossibleRun(txns, used, run) && id in used && (id in txns ==> txns[id].consumed)
    requires j < |run|
    ensures Trace(txns, run)[j].Some? ==> Trace(txns, run)[j].value.id != id
    decreases |run|
  {
    if j > 0 {
      NeverAgain(StepTxns(txns, run[0]), UsedAfter(used, run[0]), run[1..], id, j - 1);
    }
  }

  /** Each transaction is exchanged at most once in a run. */
  lemma {:induction false} OneExchangeEach(txns: Txns, used: set<string>, run: seq<Event>, i: nat, j: nat)
    requires PossibleRun(txns, used, run) && txns.Keys <= used && i < j < |run|
    ensures Trace(txns, run)[i].Some? && Trace(txns, run)[j].Some?
            ==> Trace(txns, run)[i].value.id != Trace(txns, run)[j].value.id
    decreases |run|
  {
    var txns', used' := StepTxns(txns, run[0]), UsedAfter(used, run[0]);
    if i == 0 {
      var x := Trace(txns, run)[0];
      if x.Some? {
        NeverAgain(txns', used', run[1..], x.value.id, j - 1);
      }
    } else {
      OneExchangeEach(txns', used', run[1..], i - 1, j - 1);
    }
  }

  /** While its row lasts, a transaction keeps what its start stored. */
  lemma {:induction false} ExchangeOfStart(txns: Txns, used: set<string>, run: seq<Event>, s: Event, j: nat)
    requires PossibleRun(txns, used, run) && HoldsStart(txns, s) && s.id in used && j < |run|
    ensures var x := Trace(txns, run)[j]; x.Some? && x.value.id == s.id ==> Answers(x.value, run[j], s)
    decreases |run|
  {
    if j > 0 {
      ExchangeOfStart(StepTxns(txns, run[0]), UsedAfter(used, run[0]), run[1..], s, j - 1);
    }
  }

  /** In a run from the empty store every exchange answers an earlier start of its transaction. */
  lemma {:induction false} EveryExchangeStarted(txns: Txns, used: set<string>, run: seq<Event>, j: nat)
    requires PossibleRun(txns, used, run) && txns.Keys <= used && j < |run| && Trace(txns, run)[j].Some?
    requires Trace(txns, run)[j].value.id !in txns
    ensures exists i: nat :: i < j && Answers(Trace(txns, run)[j].value, run[j], run[i])
    decreases |run|
  {
    var x := Trace(txns, run)[j].value;
    var txns', used' := StepTxns(txns, run[0]), UsedAfter(used, run[0]);
    assert j > 0;
    if run[0].Start? && run[0].id == x.id {
      ExchangeOfStart(txns', used', run[1..], run[0], j - 1);
      assert Answers(x, run[j], run[0]);
    } else {
      EveryExchangeStarted(txns', used', run[1..], j - 1);
      var i: nat :| i < j - 1 && Answers(x, run[1..][j - 1], run[1..][i]);
      assert run[1..][i] == run[i + 1];
    }
  }

  /** A callback touches no transaction but one with its own state and provider. */
  lemma SpendsOnlyOwn(txns: Txns, used: set<string>, e: Event, id: string)
    requires Possible(txns, e, used) && e.Arrive? && id in txns
    ensures id !in StepTxns(txns, e) || StepTxns(txns, e)[id] != txns[id]
            ==> txns[id].state == e.state && txns[id].provider == e.p
  {
  }

  /**
  A callback that finds its transaction spends it exactly if it is of the transaction's
  provider and reports an error or brings a code; it is exchanged exactly if it brings a
  code, no error, and the transaction is still live.
  */
  lemma CallbackSpends(p: Provider, txns: Txns, id: string, code: string, error: string, answer: Answer, now: real,
                       later: real)
    requires id in txns && !txns[id].consumed && now <= later
    ensures var (end, after, exchange) := Callback(p, txns, Some(id), code, error, answer, now);
            var own := txns[id].provider == p;
            && (id in after && Live(after[id], later)
                <==> later < txns[id].expiresAt && !(own && (error != "" || code != "")))
            && (exchange.Some? <==> own && error == "" && code != "" && now < txns[id].expiresAt)
            && (end == WrongProvider <==> !own) && (end == Denied <==> own && error != "")
            && (end == MissingCode <==> own && error == "" && code == "")
            && (end == Replayed <==> own && error == "" && code != "" && now >= txns[id].expiresAt)
            && (end == Connected <==> exchange.Some? && answer.Granted?)
            && (forall other :: other != id ==> (other in after <==> other in txns))
            && (forall other :: other != id && other in after ==> after[other] == txns[other])
  {
  }

  /** A consumed transaction leads to nothing. */
  lemma SpentForGood(p: Provider, txns: Txns, id: string, code: string, error: string, answer: Answer, now: real)
    requires id in txns && txns[id].consumed
    ensures Callback(p, txns, Some(id), code, error, answer, now).2 == None
    ensures Consume(txns, id, now) == (None, txns)
  {
  }

  /** A started transaction is found by its state for ten minutes, as long as no event is about it. */
  lemma {:induction false} StaysFound(txns: Txns, used: set<string>, run: seq<Event>, s: Event, now: real)
    requires PossibleRun(txns, used, run) && s.Start? && s.id in used && s.state != ""
    requires s.id in txns && txns[s.id] == Begun(s.p, s.iid, s.state, s.verifier, s.redirect, s.now)
    requires forall e :: e in run ==> !About(e, s)
    ensures now < s.now + 600.0 ==> s.id in Candidates(After(txns, run), s.state, now)
    decreases |run|
  {
    if run != [] {
      assert !About(run[0], s);
      StaysFound(StepTxns(txns, run[0]), UsedAfter(used, run[0]), run[1..], s, now);
    }
  }

  /** The event finds the transaction, deletes those of its installation, or purges it when it has expired. */
  predicate About(e: Event, s: Event)
    requires s.Start?
  {
    match e
    case Start(_, _, _, _, _, _, _) => false
    case Arrive(_, _, pick, _, _, _, _, _) => pick == Some(s.id)
    case Delete(iid) => iid == s.iid
    case Purge(now) => now >= s.now + 600.0
  }

  function After(txns: Txns, run: seq<Event>): Txns
    decreases |run|
  {
    if run == [] then txns else After(StepTxns(txns, run[0]), run[1..])
  }

  /** A lookup returns transactions of just that state, neither consumed nor expired. */
  lemma CandidatesMean(txns: Txns, state: string, now: real, id: string)
    ensures id in Candidates(txns, state, now)
       <==> state != "" && id in txns && txns[id].state == state && !txns[id].consumed && now < txns[id].expiresAt
  {
  }

  /** Deleting an installation's transactions deletes those, and a purge all that no lookup can return. */
  lemma RemovedExactly(txns: Txns, iid: Iid, now: real, id: string)
    ensures id in StepTxns(txns, Delete(iid)) <==> id in txns && txns[id].iid != iid
    ensures id in StepTxns(txns, Purge(now)) <==> id in txns && !txns[id].consumed && now < txns[id].expiresAt
    ensures id in StepTxns(txns, Delete(iid)) ==> StepTxns(txns, Delete(iid))[id] == txns[id]
    ensures id in StepTxns(txns, Purge(now)) ==> StepTxns(txns, Purge(now))[id] == txns[id]
  {
  }

  // ------------------------------------------------------------ purging

  /** `lean` is `full` without rows that no lookup and no consumption accepts any more. */
  ghost predicate Purged(full: Txns, lean: Txns, now: real) {
    && (forall id :: id in lean ==> id in full && lean[id] == full[id])
    && (forall id :: id in full && id !in lean ==> !Live(full[id], now))
  }

  /** When the event happens; a deletion has no clock of its own. */
  function Begins(e: Event, clock: real): real {
    match e
    case Start(_, _, _, _, _, _, now) => now
    case Arrive(_, _, _, _, _, _, found, _) => found
    case Delete(_) => clock
    case Purge(now) => now
  }

  function Ends(e: Event, clock: real): real {
    if e.Arrive? then e.now else Begins(e, clock)
  }

  predicate Monotone(clock: real, run: seq<Event>)
    decreases |run|
  {
    run == [] || (clock <= Begins(run[0], clock) <= Ends(run[0], clock) && Monotone(Ends(run[0], clock), run[1..]))
  }

  function WithoutPurges(run: seq<Event>): seq<Event>
    decreases |run|
  {
    if run == [] then []
    else if run[0].Purge? then WithoutPurges(run[1..])
    else [run[0]] + WithoutPurges(run[1..])
  }

  /** The exchanges of the events that are not purges. */
  function Decisions(txns: Txns, run: seq<Event>): seq<Option<Exchange>>
    decreases |run|
  {
    if run == [] then []
    else
      (if run[0].Purge? then [] else [StepExchange(txns, run[0])]) + Decisions(StepTxns(txns, run[0]), run[1..])
  }

  lemma SameLookups(full: Txns, lean: Txns, state: string, clock: real, now: real)
    requires Purged(full, lean, clock) && clock <= now
    ensures Candidates(full, state, now) == Candidates(lean, state, now)
  {
  }

  lemma SameStep(full: Txns, lean: Txns, e: Event, clock: real)
    requires Purged(full, lean, clock) && clock <= Begins(e, clock) <= Ends(e, clock)
    requires e.Arrive? ==> Picks(e.pick, Candidates(lean, e.state, e.found))
    requires !e.Purge?
    ensures StepExchange(full, e) == StepExchange(lean, e)
    ensures Purged(StepTxns(full, e), StepTxns(lean, e), Ends(e, clock))
  {
    if e.Arrive? {
      SameLookups(full, lean, e.state, clock, e.found);
    }
  }

  lemma PurgeIsPurged(full: Txns, lean: Txns, now: real, clock: real)
    requires Purged(full, lean, clock) && clock <= now
    ensures Purged(full, StepTxns(lean, Purge(now)), now)
  {
  }

  /** Leaving all purges out of a run changes no lookup and no exchange of it. */
  lemma {:induction false} PurgeInvisible(full: Txns, lean: Txns, used: set<string>, clock: real, run: seq<Event>)
    requires Purged(full, lean, clock) && Monotone(clock, run) && PossibleRun(lean, used, run)
    ensures PossibleRun(full, used, WithoutPurges(run))
    ensures Trace(full, WithoutPurges(run)) == Decisions(lean, run)
    decreases |run|
  {
    if run != [] {
      var e := run[0];
      var used' := UsedAfter(used, e);
      if e.Purge? {
        PurgeIsPurged(full, lean, e.now, clock);
        PurgeInvisible(full, StepTxns(lean, e), used', e.now, run[1..]);
      } else {
        SameStep(full, lean, e, clock);
        if e.Arrive? {
          SameLookups(full, lean, e.state, clock, e.found);
        }
        PurgeInvisible(StepTxns(full, e), StepTxns(lean, e), used', Ends(e, clock), run[1..]);
        var rest := WithoutPurges(run[1..]);
        assert WithoutPurges(run) == [e] + rest && ([e] + rest)[1..] == rest;
      }
    }
  }

  // ------------------------------------------------------------ a current access token

  /** How the provider answers a refresh. */
  datatype Reply = Renewed(pair: TokenPair) | Refused | Failed

  datatype Outcome =
    | Access(pair: TokenPair) | NotConnected | NoAccount | TokensMissing
    | ReconnectRequired | RefreshRejected | RefreshFailed

  predicate Current(pair: TokenPair, e: Entry, now: real) {
    pair.expiresIn != 0 && now - e.obtainedAt < (pair.expiresIn - REFRESH_MARGIN) as real
  }

  /** `now` and `locked` are the two readings of the clock, `at` the one after a refresh. */
  function EnsureFresh(l: Links, k: ConnKey, now: real, locked: real, reply: Reply, at: real): (Outcome, Links) {
    if k !in l.conns then (NotConnected, l)
    else
      var e := l.conns[k];
      match Ref(k, e)
      case None => (NoAccount, l)
      case Some(t) =>
        if t !in l.tokens then (TokensMissing, l)
        else if Current(l.tokens[t], e, now) || Current(l.tokens[t], e, locked) then (Access(l.tokens[t]), l)
        else if l.tokens[t].refresh == "" then (ReconnectRequired, l)
        else
          match reply
          case Refused => (RefreshRejected, l)
          case Failed => (RefreshFailed, l)
          case Renewed(pair) =>
            (Access(pair), Links(l.conns[k := e.(obtainedAt := at)], l.tokens[t := pair], l.owners))
  }

  /** How the call ends, by what is stored: the provider is asked only for an account's token that is not current. */
  lemma EnsureEnds(l: Links, k: ConnKey, now: real, locked: real, reply: Reply, at: real)
    ensures var (r, d) := EnsureFresh(l, k, now, locked, reply, at);
            && (r == NotConnected <==> k !in l.conns)
            && (k in l.conns && l.conns[k].account.Some? ==>
                  var t := TokKey(k.provider, l.conns[k].account.value);
                  && (r == TokensMissing <==> t !in l.tokens)
                  && (t in l.tokens ==>
                        var pair, e := l.tokens[t], l.conns[k];
                        var current := pair.expiresIn != 0
                                       && (now - e.obtainedAt < (pair.expiresIn - 120) as real
                                           || locked - e.obtainedAt < (pair.expiresIn - 120) as real);
                        && (current ==> r == Access(pair) && d == l)
                        && (r == ReconnectRequired <==> !current && pair.refresh == "")
                        && (r == RefreshRejected <==> !current && pair.refresh != "" && reply == Refused)
                        && (r == RefreshFailed <==> !current && pair.refresh != "" && reply == Failed)
                        && (!current && pair.refresh != "" && reply.Renewed? ==> r == Access(reply.pair))))
            && (!reply.Renewed? ==> d == l)
  {
  }

  /** The account's token is current at neither reading, and there is a refresh token for it. */
  predicate Refreshes(l: Links, k: ConnKey, now: real, locked: real) {
    && k in l.conns && l.conns[k].account.Some?
    && var t := TokKey(k.provider, l.conns[k].account.value);
       t in l.tokens && l.tokens[t].refresh != "" && !Current(l.tokens[t], l.conns[k], now)
       && !Current(l.tokens[t], l.conns[k], locked)
  }

  /** A renewed pair is stored with its date: it is what the next calls are served with while it is current. */
  lemma RenewedIsServed(l: Links, k: ConnKey, now: real, locked: real, pair: TokenPair, at: real,
                        now2: real, locked2: real, reply2: Reply, at2: real)
    requires Refreshes(l, k, now, locked)
    ensures var d := EnsureFresh(l, k, now, locked, Renewed(pair), at).1;
            && (pair.expiresIn != 0 && now2 - at < (pair.expiresIn - 120) as real ==>
                  EnsureFresh(d, k, now2, locked2, reply2, at2) == (Access(pair), d))
            && TokKey(k.provider, l.conns[k].account.value) in d.tokens
            && d.tokens[TokKey(k.provider, l.conns[k].account.value)] == pair
            && k in d.conns && d.conns[k] == l.conns[k].(obtainedAt := at)
  {
  }

  /** Other rows, other connections and all owners are as before. */
  lemma RefreshSpares(l: Links, k: ConnKey, now: real, locked: real, reply: Reply, at: real, q: ConnKey, t: TokKey)
    ensures var d := EnsureFresh(l, k, now, locked, reply, at).1;
            && d.owners == l.owners && (q in d.conns <==> q in l.conns) && (t in d.tokens <==> t in l.tokens)
            && (q != k && q in l.conns ==> d.conns[q] == l.conns[q])
            && (t in l.tokens && !(k in l.conns && l.conns[k].account == Some(t.puid) && k.provider == t.provider) ==>
                  d.tokens[t] == l.tokens[t])
  {
  }

  /** A callback stores the account's pair and a connection to it that is nobody's yet; the row keeps its owner. */
  lemma SavedMeans(l: Links, k: ConnKey, account: string, pair: TokenPair, at: real, q: ConnKey, t: TokKey)
    ensures var d := Saved(l, k, account, pair, at);
            && d.owners == l.owners
            && (q in d.conns <==> q in l.conns || q == k)
            && (q in d.conns ==> d.conns[q] == if q == k then Entry(Some(account), None, at) else l.conns[q])
            && (t in d.tokens <==> t in l.tokens || t == TokKey(k.provider, account))
            && (t in d.tokens ==> d.tokens[t] == if t == TokKey(k.provider, account) then pair else l.tokens[t])
  {
  }

  /** The tables one provider's service works on. */
  datatype State = State(links: Links, txns: Txns)

  class ConnectService {
    const provider: Provider
    var st: State

    constructor (provider: Provider, st: State)
      ensures this.provider == provider && this.st == st
    {
      this.provider, this.st := provider, st;
    }

    /** The id, state and verifier are drawn at random by the caller; `now` is the later of two clock readings. */
    method Start(iid: Iid, redirect: string, id: string, state: string, verifier: string, now: real) returns (url: Url)
      modifies this
      ensures st == old(st).(txns := StepTxns(old(st).txns,
                                              Event.Start(id, provider, iid, state, verifier, redirect, now)))
      ensures url == UrlOf(Event.Start(id, provider, iid, state, verifier, redirect, now))
    {
      var txn := Txn(provider, iid, state, verifier, redirect, now + TRANSACTION_TTL, false);
      st := st.(txns := st.txns[id := txn]);
      url := Url(redirect, state, S256(verifier));
    }

    /** The first live transaction with the state, in whatever order the store lists them. */
    method FindByState(state: string, now: real) returns (pick: Option<string>)
      ensures Picks(pick, Candidates(st.txns, state, now))
    {
      if state == "" {
        return None;
      }
      var todo := st.txns.Keys;
      while todo != {}
        invariant todo <= st.txns.Keys && Candidates(st.txns, state, now) <= todo
        decreases todo
      {
        var id :| id in todo;
        var x := st.txns[id];
        if x.state == state && !x.consumed && now < x.expiresAt {
          return Some(id);
        }
        todo := todo - {id};
      }
      return None;
    }

    method ConsumeTxn(id: string, now: real) returns (x: Option<Txn>)
      modifies this
      ensures (x, st.txns) == Consume(old(st).txns, id, now) && st == old(st).(txns := st.txns)
    {
      if id !in st.txns || st.txns[id].consumed {
        return None;
      }
      if now >= st.txns[id].expiresAt {
        st := st.(txns := st.txns - {id});
        return None;
      }
      st := st.(txns := st.txns[id := st.txns[id].(consumed := true)]);
      return Some(st.txns[id]);
    }

    /** Handles a redirect back from the provider: looked up at `found`, consumed at `now`, saved at `at`. */
    method HandleCallback(state: string, code: string, error: string, answer: Answer, found: real, now: real, at: real)
      returns (end: CallbackEnd, pick: Option<string>, exchange: Option<Exchange>)
      modifies this
      ensures Picks(pick, Candidates(old(st).txns, state, found))
      ensures (end, st.txns, exchange) == Callback(provider, old(st).txns, pick, code, error, answer, now)
      ensures st.links == if end == Connected
                          then Saved(old(st).links, ConnKey(old(st).txns[pick.value].iid, provider), answer.account,
                                     answer.pair, at)
                          else old(st).links
    {
      exchange := None;
      pick := FindByState(state, found);
      if pick == None {
        return BadState, pick, None;
      }
      var id := pick.value;
      if st.txns[id].provider != provider {
        return WrongProvider, pick, None;
      }
      if error != "" {
        var _ := ConsumeTxn(id, now);
        return Denied, pick, None;
      }
      if code == "" {
        return MissingCode, pick, None;
      }
      var x := ConsumeTxn(id, now);
      if x == None {
        return Replayed, pick, None;
      }
      exchange := Some(Exchange(id, code, x.value.verifier, x.value.redirect, now));
      if !answer.Granted? {
        return ProviderFailed, pick, exchange;
      }
      st := st.(links := st.links.(tokens := st.links.tokens[TokKey(provider, answer.account) := answer.pair]));
      var k := ConnKey(x.value.iid, provider);
      st := st.(links := st.links.(conns := st.links.conns[k := Entry(Some(answer.account), None, at)]));
      return Connected, pick, exchange;
    }

    /** A current access token, refreshed once if need be; nothing else runs in between. */
    method EnsureFreshToken(iid: Iid, now: real, locked: real, reply: Reply, at: real) returns (r: Outcome)
      modifies this
      ensures st.txns == old(st).txns
      ensures (r, st.links) == EnsureFresh(old(st).links, ConnKey(iid, provider), now, locked, reply, at)
    {
      var k := ConnKey(iid, provider);
      if k !in st.links.conns {
        return NotConnected;
      }
      var entry := st.links.conns[k];
      if entry.account == None {
        return NoAccount;
      }
      var t := TokKey(provider, entry.account.value);
      if t !in st.links.tokens {
        return TokensMissing;
      }
      var pair := st.links.tokens[t];
      if Current(pair, entry, now) || Current(pair, entry, locked) {
        return Access(pair);
      }
      if pair.refresh == "" {
        return ReconnectRequired;
      }
      if reply.Refused? {
        return RefreshRejected;
      }
      if reply.Failed? {
        return RefreshFailed;
      }
      st := st.(links := st.links.(tokens := st.links.tokens[t := reply.pair]));
      st := st.(links := st.links.(conns := st.links.conns[k := entry.(obtainedAt := at)]));
      return Access(reply.pair);
    }

    method PurgeExpired(now: real) returns (expired: nat, consumed: nat)
      modifies this
      ensures st == old(st).(txns := StepTxns(old(st).txns, Purge(now)))
      ensures expired == |Expired(old(st).txns, now)| && consumed == |Spent(old(st).txns, now)|
      ensures expired + consumed == |old(st).txns| - |st.txns|
    {
      var left;
      left, expired, consumed := PurgeEach(st.txns, now);
      st := st.(txns := left);
    }
  }

  /** Goes through all rows and drops the dead ones; an expired one counts as expired even if it was consumed. */
  method PurgeEach(txns: Txns, now: real) returns (left: Txns, expired: nat, consumed: nat)
    ensures left == StepTxns(txns, Purge(now))
    ensures expired == |Expired(txns, now)| && consumed == |Spent(txns, now)| && expired + consumed == |txns| - |left|
  {
    ghost var a, b := Expired(txns, now), Spent(txns, now);
    var todo := txns.Keys;
    left, expired, consumed := txns, 0, 0;
    SiftedNone(txns, a, b, todo);
    while todo != {}
      invariant todo <= txns.Keys
      invariant (left, expired, consumed) == Sifted(txns, a, b, todo)
      decreases todo
    {
      var id :| id in todo;
      SiftedNext(txns, a, b, todo, id);
      if left[id].expiresAt <= now {
        left, expired := left - {id}, expired + 1;
      } else if left[id].consumed {
        left, consumed := left - {id}, consumed + 1;
      }
      todo := todo - {id};
    }
    SiftedAll(txns, a, b);
  }
}
