# Stream metadata plugin and backend: verified model

The system is an OBS dock that writes title and description to Twitch, YouTube, Kick and
Facebook, and a backend that keeps the accounts' tokens for it. This project models six
parts of it in Dafny and proves what they are for.

- **The connection pool** (`PoolProtocol.dfy`, `Pool.dfy`). Threads share a queue of
  connections and a counter under a lock. `PoolProtocol` interleaves their single steps
  (reading and writing the counter are separate steps) and shows, for every run of any
  number of threads, that the counter is exact, the bound holds, no connection is in two
  places, and `with` blocks give back in reverse order. `Pool` is the code of one thread.
- **Ownership and erasure** (`Tables.dfy`, `Ownership.dfy`, `OwnershipFacts.dfy`,
  `Backend.dfy`, `OwnershipRuns.dfy`). Token rows are shared between installations and go with their last
  reference. `Ownership` gives each operation a meaning as a function of whole tables;
  class `Backend.Stores` performs it row by row, with counters, and is proved to compute
  that function; `OwnershipFacts` says what the function leaves, field by field.
  `OwnershipRuns` is about any sequence of operations by any users.
- **The Apply queue** (`ApplyPlan.dfy`, `ApplyDock.dfy`). `ApplyPlan` is one platform's
  bounded retry loop on its own. `ApplyDock` is the dock's machine with one queue and shared
  retry flags; whatever the replies, it sends and shows exactly one independent plan per
  platform, in order, and stops with the button enabled.
- **Connecting and refreshing** (`OAuth.dfy`, `SingleFlight.dfy`, `MissingRows.dfy`,
  `LostAnswers.dfy`, `RefreshRuns.dfy`). One-use transactions over whole runs; then the token
  refresh with every store access, lock and provider call a step of its own, interleaved with
  callbacks and deletions: what deletions can leave behind or have undone, and what becomes
  of a refresh whose answer is lost.
- **Time-based authentication** (`Auth.dfy`, `RateLimiter.dfy`, `Login.dfy`,
  `ClientSession.dfy`). Nonces, rotation, sliding user sessions and the purge on one shared
  session table; the sliding-log limiter and its composition in login; the plugin's margin
  against the server's expiry.
- **Two store implementations** (`StoreModels.dfy`, `StoreClasses.dfy`). The in-memory
  stores and the PostgreSQL row models answer every sequence of calls alike.

`Options.dfy` is the option type. Lemmas that are inductive or about sequences switch Dafny's
automatic induction off: over sequences its hypothesis can be stronger than what is proved.

## What is assumed

Random ids, tokens and states are new whenever they are drawn. Clocks do not go back. Store
calls are atomic and do not throw, except in the pool and the refresh model, whose subject
is interleaving. What providers answer, what pings find, when replies arrive and what time
it is are parameters, so every theorem is about all of them. HMAC is one bit per signed
request (genuine or not), and S256 is an injective constructor.

## What turned out not to hold

Each of these is a lemma with the exact condition, and a concrete run or input.

- A thread can report "pool exhausted" while the pool has room, because writing off a broken
  connection wakes nobody (`PoolProtocol.SpuriousExhaustion` is such a run). It found the pool
  full when it last looked (`WaitsOnlyAfterFull`); the report is true exactly if as many
  connections were opened as written off since then (`ReportedTruly`). After `close()` the
  places are never given back (`Pool.PgPool.AcquireAfterClose`).
- A user's erasure leaves the user recorded as owner of some token rows, namely of those
  that no connection of the user points at, or that somebody else's also does
  (`Ownership.OwnerOutlivesUser`); and it revokes remotely the tokens of rows it keeps
  (`Ownership.RevokedYetKept`). Both happen to an account that two users have connected
  (`OwnershipRuns.OutlivesErasure`).
- A login takes over the token rows of the accounts it keeps, and so locks out another
  user's installation exactly when that shares such an account
  (`Ownership.SharedAccountTakenOver`; `OwnershipRuns.LockedOut` is such a run).
- Tokens are never missing when operations do not overlap (`OwnershipRuns.TokensNeverMissing`).
  When they do, deleting a row lets a connection come to lack it exactly if a connection
  points at the row, or a thread is about to store one that does: a callback or a refresh at
  its last write, or a refresh of another account that has read the connection again
  (`MissingRows.DeletionLoses`). Checking that no connection points at the row, as the code
  does, is not enough (`RefreshRuns.LossReachable`).
- A refresh can undo a deletion that it overlaps. Whatever happens in between, a deleted
  connection is back exactly if the refresh was past its decision when the connection was
  deleted, or had read it and decided before the row was gone; a deleted row exactly if the
  refresh was past its decision when the row was deleted and had not stored its pair
  (`MissingRows.ConnBack`, `RowBack`, `DeletionUndone`; `RefreshRuns.UndoneReachable` is a run
  that undoes both).
- A nonce counts for ten minutes and a timestamp for fifteen, so a signed message accepted
  up to five minutes after its timestamp can be acceptable again; `Auth.AcceptedAgain` says
  exactly when, `Auth.AcceptedOnce` when never, and `Auth.AcceptedTwice` is a run.
- The thirty-day cap holds exactly for the sessions that a login began (`Auth.CappedIffLogin`).
  Any other session accepted as a user's can be renewed for ever, and there are such: an
  adopted installation's own session (`Auth.UncappedReachable`).
- An installation's session lasts half an hour from its issue, or fifteen days from its last
  renewal as a user's, if it had one (`Auth.InstallationSessionAccepted`; `Auth.BearerOutlives`
  is a run in which the half hour is over).
- A provider may carry out a refresh whose answer is lost. The token is presented a second
  time only after the failure was reported (`SingleFlight.PresentedTwice`), and with every
  thread idle it will be in some continuation exactly if a connection still points at the row
  that holds it (`LostAnswers.PresentedIff`; `RefreshRuns.TwiceReachable` is a run).
- A refresh answered with 2xx but without a usable token is reported as success on the old
  session (`ClientSession.OkMeansValid`, `ClientSession.OkWithoutSession`;
  `src/backend_auth.cpp:241-255`).

## Model

| member | source | states |
|---|---|---|
| PoolProtocol.StepKeeps | backend/db.py:113-203 | every step of any thread keeps the lock discipline, the exact count, each connection in one place, and stacks that replay their logs |
| PoolProtocol.PoolIsBounded | backend/db.py:134-138 | in every run the counter and the live connections never exceed the maximum, and with the lock free the counter is queued plus held plus not yet written off plus closed |
| PoolProtocol.NeverShared | backend/db.py:182-203 | in no run do two threads hold a connection, nor does one hold it twice or while it is queued |
| PoolProtocol.LastInFirstOut | backend/db.py:182-203 | what a thread gives back is what it took last and has not given back |
| PoolProtocol.QuietCount | backend/db.py:113-180 | with nothing held and nothing closed the counter is the queue length: no count is lost |
| PoolProtocol.WaitsOnlyAfterFull | backend/db.py:134-149 | a thread in the timed wait found the counter at its maximum when it last looked |
| PoolProtocol.ReportedTruly | backend/db.py:139-164 | since that look the counter moved by what was opened less what was written off, so a report of exhaustion is true exactly if these are equal, and always if nothing was written off |
| PoolProtocol.EveryLoneAcquire | backend/db.py:113-138 | however many queued connections are dead, a thread left alone in `acquire` never waits or gives up whatever its pings find, can always go on, and has a connection within four moves per queued connection and four more |
| PoolProtocol.AcquiresWhenQuiet | backend/db.py:113-138 | so it is from every reachable state in which nobody holds a connection |
| PoolProtocol.AcquiresAlone | backend/db.py:113-138 | for any set of dead connections, the run in which exactly their pings fail ends with the first live one of the queue, or a new one, and the dead ones written off |
| PoolProtocol.SpuriousExhaustion | backend/db.py:139-164 | a run at whose end exhaustion can be reported although no connection exists |
| Pool.NewPool | backend/db.py:88-100 | a pool of less than one connection is refused |
| Pool.WaitedMeans | backend/db.py:139-164 | a wait ends with the first arrival that is alive or leaves room, and times out if there is none; the counter is what it was and all that happened since |
| Pool.PgPool.Acquire | backend/db.py:113-164 | which connection is returned, what is left in the queue and the counter, for every mix of dead connections, opener failures, arrivals during the wait and changes of the counter by others |
| Pool.PgPool.Release | backend/db.py:166-180 | the connection is queued again, or else the counter is lowered |
| Pool.PgPool.Enter | backend/db.py:182-191 | pushed on the stack only if acquired; exhaustion exactly if every queued connection is dead, there is no room and the wait times out, with the counter where the wait and the others left it |
| Pool.PgPool.Exit | backend/db.py:193-203 | releases the top of the stack once, and nothing if the stack is empty |
| Pool.PgPool.AcquireAfterClose | backend/db.py:205-214 | after a close, exhaustion exactly if the queue held all the places |
| ApplyPlan.BoundedCost | src/metadata_dock.cpp:6843-7011 | a platform's turn costs at most four updates, one refresh and one listing or creation |
| ApplyPlan.OnlyOwnOps | src/metadata_dock.cpp:6870-7011 | a platform's requests are about that platform, and Facebook never refreshes |
| ApplyPlan.OwnRepliesDecide | README.md:15-16 | a platform's requests and result depend on its own replies alone |
| ApplyPlan.AnswerMeans | src/metadata.cpp:196-212 | which statuses and Graph codes count as accepted, as a refused token and as busy |
| ApplyPlan.StatusTexts | src/metadata.cpp:492-515 | the text shown for each status |
| ApplyPlan.FacebookTexts | src/metadata.cpp:214-236 | exactly which Graph codes have texts of their own |
| ApplyPlan.CreationTexts | src/metadata_dock.cpp:8314-8465 | exactly when a creation is good, and its text |
| ApplyPlan.FirstRequest | src/metadata_dock.cpp:6870-7011 | exactly when a turn starts with an update, a listing, a creation or nothing |
| ApplyPlan.NextRequest | src/metadata_dock.cpp:8998-9160 | exactly when an update is followed by a refresh, by another update, or by its result, on raw answers |
| ApplyPlan.NextAfterRefresh | src/metadata_dock.cpp:9027-9055 | a refresh answered with 200 is followed by the update, anything else by a failure |
| ApplyPlan.NextAfterListing | src/metadata_dock.cpp:8894-8990 | a listing with a broadcast is followed by the update, anything else by a failure |
| ApplyPlan.HonestVerdict | src/metadata_dock.cpp:8998-9160 | a result is good exactly if the platform's last request was an update or creation that the platform accepted, by status, Graph code and id |
| ApplyDock.BeginKeeps | src/metadata_dock.cpp:6843-7011 | starting the next platform changes nothing of what the run will send and show |
| ApplyDock.TimerKeeps | src/metadata_dock.cpp:7353-7358 | a backoff resend changes nothing of what the run will send and show, and brings its end closer |
| ApplyDock.ReplyKeeps | src/metadata_dock.cpp:8747-9160 | neither does any reply: refresh, backoff, listing, creation, success or failure |
| ApplyDock.RunOver | src/metadata_dock.cpp:7326-7331 | when the button is enabled again, exactly the independent plans of the queued platforms have been sent and shown |
| ApplyDock.OneResultEach | README.md:15-16 | one result per queued platform, in queue order, each that of the platform's own loop |
| ApplyDock.NoInterference | README.md:15-16 | other platforms' replies never change a platform's result |
| ApplyDock.WorldAfter | src/metadata_dock.cpp:8747-9160 | exactly which replies disconnect an account, replace a refresh token, or find or make a broadcast or video |
| ApplyDock.SelectedMeans | src/metadata_dock.cpp:6801-6830 | the queue is the ticked, connected platforms, in dock order |
| ApplyDock.Dock.OnApply | src/metadata_dock.cpp:6801-6841 | queues the ticked, connected platforms in dock order; with none it sends nothing and leaves the button enabled |
| ApplyDock.Dock.StartApplyNext | src/metadata_dock.cpp:6843-7011 | settles platforms that cannot send and sends the first request of the next that can |
| ApplyDock.Dock.ScheduleBackoff | src/metadata_dock.cpp:7333-7351 | prepends the platform and keeps its budget exactly for rate limits and server errors within two backoffs |
| ApplyDock.Dock.OnUpdateReply | src/metadata_dock.cpp:8998-9160 | refresh once, else back off, else settle |
| ApplyDock.Dock.OnRefreshReply | src/metadata_dock.cpp:9027-9160 | resends with the new token, or settles as needing reconnection |
| ApplyDock.Dock.OnListReply | src/metadata_dock.cpp:8894-8996 | resumes the prepended platform with a broadcast, or settles it |
| ApplyDock.Dock.OnCreateReply | src/metadata_dock.cpp:8314-8465 | settles Facebook with what creating the live video came to |
| ApplyDock.Dock.OnEvent | src/metadata_dock.cpp:7353-7358 | every event keeps what is due and lowers a measure |
| ApplyDock.Dock.RunApply | src/metadata_dock.cpp:6801-6857 | a whole Apply ends with an empty queue and the button enabled, having sent and shown one independent plan per selected platform |
| Tables.DropOneMore | backend/oauth.py:179-203 | deleting connections one at a time, in any order, with the rows that lose their last reference, equals deleting them all at once, counts included |
| Tables.DropKeepsLinked | backend/oauth.py:199-203 | no deletion takes a token row from under a connection that remains |
| Tables.DropSpares | backend/users.py:205-209 | a connection not deleted keeps its row and the row's owner |
| OwnershipFacts.DropMeans | backend/oauth.py:196-203 | exactly the given connections go, and exactly the rows that lose all their connections by it |
| OwnershipFacts.EligibleMeans | backend/users.py:379-396 | rows of the four providers with an account id are those a clean-up may remove |
| Backend.Stores.EraseUser | backend/users.py:184-357 | the loop erases exactly the set-level meaning of the user's data, its counts are the sizes of those sets, and the rows to revoke are those the user's connections pointed at |
| OwnershipFacts.ErasedConns | backend/users.py:223-260 | a connection goes exactly if it is marked with the user, or unmarked on an installation adopted by the user |
| OwnershipFacts.ErasedRows | backend/users.py:241-280 | a token row goes exactly if it is eligible, nobody else's, and loses all its connections, of which it had one |
| OwnershipFacts.ErasedRest | backend/users.py:284-332 | exactly which sessions, transactions, installations and users go, and that the rest is unchanged |
| OwnershipFacts.ErasedCounts | backend/users.py:354-357 | each count is the difference in its table's size |
| OwnershipFacts.PendingMeans | backend/users.py:280 | exactly the eligible rows that the connections point at are revoked |
| Ownership.EraseTwice | backend/users.py:200-204 | a second erasure changes nothing and counts only zeros |
| Ownership.EraseSparesOthers | backend/users.py:205-212 | other users' connections, their rows and their installations are as before, and of their sessions exactly those on the erased user's installations go |
| Ownership.RevokedYetKept | backend/users.py:262-280 | which of the remotely revoked rows stay in the tables |
| Ownership.OwnerOutlivesUser | backend/users.py:262-279 | on exactly which rows the erased user stays recorded as owner |
| Backend.Stores.DeleteGuarded | backend/users.py:414-455 | one guarded deletion: the row goes only with its last reference, and is noted for revocation either way |
| Backend.Stores.CleanInstallation | backend/users.py:522-544 | removes every connection of the installation, each row with its last reference, with the exact counts |
| OwnershipFacts.SignedOutConns | backend/users.py:536-542 | exactly the installation's connections go |
| OwnershipFacts.SignedOutRows | backend/users.py:441-453 | and exactly the eligible rows that lose all theirs |
| OwnershipFacts.CleanedSizes | backend/users.py:541-544 | the counts are the differences in table size |
| Backend.Stores.PurgeForeign | backend/users.py:484-519 | removes exactly the connections whose owner is somebody else, although owners are looked up while rows are being deleted |
| Backend.Stores.Adopt | backend/users.py:155-181 | marks the installation, its sessions, its connections and their rows; nothing for an unknown installation |
| Backend.Stores.Login | backend/http_server.py:464-466 | other users' connections go, then the installation is adopted; nothing without a user or an installation |
| Backend.Stores.EnforceOwner | backend/http_server.py:219-276 | accepts or refuses a request, recording the caller where nobody is |
| Backend.Stores.StampCallbackOwner | backend/http_server.py:278-317 | after a callback the connection and row are the adopting user's |
| Backend.Stores.EraseLocal | backend/oauth.py:179-203 | one connection goes, and its row if nothing else references it |
| Backend.Stores.EraseInstallation | backend/privacy.py:13-45 | exactly the installation's connections of the given providers, their last-referenced rows, its sessions, transactions and itself, with exact counts |
| OwnershipFacts.InstallErasedConns | backend/privacy.py:19-25 | exactly the installation's connections at the given providers go |
| OwnershipFacts.InstallErasedRows | backend/oauth.py:198-202 | and exactly the rows that lose all theirs |
| OwnershipFacts.InstallErasedRest | backend/privacy.py:26-29 | exactly its sessions, its transactions and itself go, and the rest is unchanged |
| OwnershipFacts.InstallErasedSizes | backend/privacy.py:42-45 | the counts are the differences in table size |
| Ownership.LoginKeepsOwn | backend/users.py:484-519 | after a login the installation's connections are those the user or nobody owned, marked and with their rows owned by the user |
| OwnershipFacts.SurvivesLogin | backend/users.py:399-411 | a login keeps a connection of the installation exactly if its mark, or without one its row's recorded owner, names nobody else |
| OwnershipFacts.LoginRows | backend/users.py:441-453 | exactly the eligible rows that lose all their connections go with them |
| OwnershipFacts.AdoptedMarks | backend/users.py:170-174 | adoption marks the installation and exactly its sessions |
| OwnershipFacts.AdoptedConns | backend/stores.py:322-337 | exactly its connections, and nothing else of them |
| OwnershipFacts.AdoptedRows | backend/users.py:178-180 | and makes the user owner of exactly the rows of its accounts |
| Ownership.LoginSparesOthers | backend/users.py:414-455 | a login deletes nothing another installation uses |
| Ownership.LoginDecidesAccess | backend/http_server.py:219-263 | after a login the installation serves that user and nobody else, for every provider |
| Ownership.FirstCallerOwns | backend/http_server.py:264-276 | the first user served on a connection is the only one from then on |
| OwnershipFacts.EnforcedMeans | backend/http_server.py:219-276 | a request is served exactly if adoption, mark and row owner name nobody else, and marks exactly the connection |
| OwnershipFacts.EnforcedOwners | backend/http_server.py:270-276 | and records the user as owner of exactly its row |
| OwnershipFacts.StampedMeans | backend/http_server.py:286-312 | a callback on an adopted installation marks exactly its connection and row |
| Ownership.SharedAccountTakenOver | backend/users.py:178-180 | exactly when a login locks out a user of another installation |
| OwnershipRuns.LockedOut | backend/users.py:178-180 | a run of sign-ups and callbacks after which a login does |
| OwnershipRuns.OutlivesErasure | backend/users.py:262-280 | after the same run an erasure revokes a row's tokens and keeps the row as the erased user's |
| OwnershipRuns.StepKeeps | backend/http_server.py:436-557 | every operation keeps connections linked to rows, owners to rows, marks to adoptions and dates to issue times |
| OwnershipRuns.RunKeeps | backend/users.py:155-544 | so does every run of them |
| OwnershipRuns.SigningIn | backend/http_server.py:406-471 | a login stores its session and adopts, for a known user only; a sign-up adds an unknown one |
| OwnershipRuns.SigningOut | backend/http_server.py:511-542 | exactly the installation's connections go, and only for a known session |
| OwnershipRuns.Requests | backend/http_server.py:809-824 | connecting and disconnecting have their effect exactly if the request is admitted |
| OwnershipRuns.Refreshing | backend/oauth.py:158-160 | a refresh leaves the renewed pair in the account's row |
| OwnershipRuns.Connects | backend/http_server.py:827-850 | a callback leaves the connection, the pair, and the adopting user with both |
| OwnershipRuns.Erasing | backend/http_server.py:564-580 | an erasure erases whom or what it names |
| OwnershipRuns.TokensNeverMissing | backend/oauth.py:135-137 | after any run a refresh never finds tokens missing, and finds "not connected" exactly if there is no connection |
| OwnershipRuns.ServedTokenLives | backend/oauth.py:138-161 | a served token was issued just now or has more than 120 s, less one call's latency, of its stated life left at the clock reading that accepted it, whichever installation refreshed it |
| OwnershipRuns.AdoptedAccess | backend/http_server.py:219-263 | after any run an adopted installation serves exactly its user, except where the account's row is another user's |
| OwnershipRuns.EraseForgets | backend/users.py:217-332 | after an erasure no user row, adoption, mark or session is the user's |
| OwnershipRuns.ErasedForGood | backend/users.py:200-204 | and after no later run, whatever anybody does, does anything act as that user |
| OAuth.ConnectService.Start | backend/oauth.py:43-61 | stores the transaction and puts its verifier's challenge in the URL |
| OAuth.ConnectService.FindByState | backend/stores.py:246-253 | finds a live transaction of the state exactly if there is one |
| OAuth.ConnectService.ConsumeTxn | backend/stores.py:236-244 | consumes once, and drops an expired row |
| OAuth.ConnectService.HandleCallback | backend/oauth.py:64-93 | the whole callback: what it consumes, exchanges and stores in each outcome |
| OAuth.ConnectService.EnsureFreshToken | backend/oauth.py:125-161 | a current token, at most one refresh, and both writes, without interleaving |
| OAuth.EnsureEnds | backend/oauth.py:125-161 | how the call ends, by what is stored and answered |
| OAuth.RenewedIsServed | backend/oauth.py:158-160 | a renewed pair is stored with its date, and is what later calls are served with while it has more than 120 s left |
| OAuth.RefreshSpares | backend/oauth.py:158-160 | other rows, other connections and all owners are as before |
| OAuth.SavedMeans | backend/oauth.py:84-90 | a callback stores the pair and an unmarked connection, keeps the row's owner, and nothing else changes |
| OAuth.CallbackSpends | backend/oauth.py:64-82 | exactly when a callback spends its transaction, when it is exchanged, and how it ends |
| OAuth.SpentForGood | backend/stores.py:238-239 | a consumed transaction leads to nothing |
| OAuth.StaysFound | backend/oauth.py:43-53 | a started transaction is found by its state for 600 s if no event is about it |
| OAuth.CandidatesMean | backend/stores.py:246-253 | exactly what a lookup by state may return |
| OAuth.RemovedExactly | backend/stores.py:255-274 | exactly what a deletion and a purge leave |
| OAuth.ConnectService.PurgeExpired | backend/stores.py:263-274 | removes exactly the expired and consumed rows; the counts are disjoint and add up to what is gone |
| OAuth.OneExchangeEach | backend/oauth.py:78-82 | in every run a transaction is exchanged at most once |
| OAuth.EveryExchangeStarted | backend/oauth.py:43-82 | every exchange answers an earlier start with that state and provider, within ten minutes, with the verifier whose challenge was in its URL and its redirect |
| OAuth.SpendsOnlyOwn | backend/oauth.py:68-71 | a callback consumes nothing of another provider or state |
| OAuth.PurgeInvisible | backend/maintenance.py:1-8 | leaving every purge out of a run changes no lookup and no exchange |
| SingleFlight.ExclusiveStep | backend/oauth.py:121-141 | every step keeps one lock per account and one thread inside it |
| SingleFlight.NoDeadlock | backend/oauth.py:141-161 | whoever waits, the lock is free or its holder can move |
| SingleFlight.StepKeeps | backend/oauth.py:125-161 | every step, of refreshes, callbacks and deletions, keeps: a token in use is unredeemed, one not yet stored is nowhere else, a redeemed one in a row is about to be replaced |
| SingleFlight.NeverPresentedAgain | backend/oauth.py:141-158 | in no interleaving is a refresh token presented again once the answer to its redemption has arrived |
| SingleFlight.PresentedTwice | backend/oauth.py:150-157 | whatever happens to answers, a token is presented a second time only after its first presentation was answered with a failure |
| LostAnswers.PresentedIff | backend/oauth.py:125-151 | with every thread idle, an issued token can be presented exactly if a connection points at the row that holds it |
| RefreshRuns.TwiceReachable | backend/oauth.py:150-157 | a run in which a token is presented, a failure reported, and the token presented again |
| SingleFlight.OneRefreshAtATime | backend/oauth.py:141-151 | at most one refresh of an account is under way |
| SingleFlight.SpacedRefreshes | backend/oauth.py:142-160 | two refreshes for one installation and account are a token's life less 120 s apart |
| MissingRows.RowedStep | backend/oauth.py:84-90 | the exact steps that leave a connection without its row |
| MissingRows.RowsKept | backend/oauth.py:135-160 | in every interleaving whose row deletions hit no row that a connection or a thread relies on, no row is ever missing |
| MissingRows.SafeExactly | backend/oauth.py:125-160 | a state from which a row can come to be missing without further deletions is exactly one where a connection lacks its row or a thread relies on one that is gone |
| MissingRows.DeletionLoses | backend/oauth.py:197-202 | the exact row deletions after which a connection can come to lack its row |
| RefreshRuns.LossReachable | backend/oauth.py:84-90 | a run in which rows are deleted only when no connection points at them, and one is missing in the end |
| MissingRows.VisitExists | backend/oauth.py:141-161 | a thread inside the lock can always finish |
| MissingRows.ConnBack | backend/oauth.py:142-160 | whatever all threads do, a connection deleted while a thread is in its lock is back exactly if that thread was past its decision or decides later |
| MissingRows.InsideFindsNothing | backend/oauth.py:143-146 | a thread that reads again after the deletion brings nothing back |
| MissingRows.RowBack | backend/oauth.py:144-158 | a row deleted meanwhile is back exactly if the thread was past its decision and had not stored its pair |
| MissingRows.DeletionUndone | backend/oauth.py:195-202 | connection and row deleted at moments of their own, any moves in between: exactly when either is back |
| RefreshRuns.UndoneReachable | backend/oauth.py:195-202 | a run in which both, deleted with the references checked, are back |
| Auth.NonceAccepted | backend/auth.py:110-118 | in every run a nonce is accepted exactly if it is long enough and its last use is 600 s past |
| Auth.SignedAccepted | backend/auth.py:94-118 | in every run a signed request is accepted exactly if genuine, from a live installation, within 900 s of its timestamp, with a nonce of 16 characters not used for 600 s |
| Auth.AcceptedAgain | backend/auth.py:94-118 | in every run, a signed message accepted before is accepted again exactly if every use of its nonce is 600 s past and its timestamp no more than 900 s |
| Auth.AcceptedTwice | backend/auth.py:94-118 | a run in which a message is accepted twice |
| Auth.AcceptedOnce | backend/auth.py:94-118 | a message accepted more than 300 s after its timestamp never is again |
| Auth.InstallationSessionAccepted | backend/auth.py:134-146 | in every run an installation's session is accepted exactly while it is stored, unrevoked, of a live installation, and within 1800 s of its issue or 15 days of its last renewal as a user's |
| Auth.InstallationSessionEnds | backend/auth.py:126-146 | past 1800 s only after an adoption and such a renewal |
| Auth.BearerOutlives | backend/http_server.py:497-503 | a run in which it is accepted at 1800 s |
| Auth.OneLivePerChain | backend/auth.py:148-159 | of all tokens rotated from one session request at most one is accepted |
| Auth.RotatedAway | backend/auth.py:157-159 | a refreshed session is never accepted again |
| Auth.OverForGood | backend/auth.py:161-167 | a revoked or deleted session is never accepted again |
| Auth.RevokedForGood | backend/auth.py:161-167 | a revocation ends the session it names for good |
| Auth.LoggedOutForGood | backend/http_server.py:543-548 | so does signing out |
| Auth.ErasedForGood | backend/stores.py:91-107 | an erasure removes exactly the sessions of whom or what it names, for good |
| Auth.PurgedExactly | backend/stores.py:109-120 | a purge removes exactly the expired and the revoked |
| Auth.OthersUntouched | backend/auth.py:120-167 | an operation touches the sessions it names and no others |
| Auth.AdoptionMarks | backend/stores.py:122-130 | an adoption marks exactly the installation's sessions |
| Auth.IssuedAccepted | backend/auth.py:126-132 | a granted session is accepted at once, and for 1800 s |
| Auth.BearerAsUser | backend/http_server.py:484-509 | exactly when an installation's session is accepted as its user's |
| Auth.Closes | backend/auth.py:169-173 | a granted revocation, an erasure of the installation and one of the user it belongs to close it |
| Auth.ClosedForGood | backend/auth.py:99-104 | nothing signed by a closed installation and none of its sessions is ever accepted again |
| Auth.UserSessionAccepted | backend/http_server.py:473-509 | in every run a login's session is accepted exactly if it is not ended, its user exists, the last renewal is under 15 days and the login under 30 days old |
| Auth.ExpiryAdvances | backend/http_server.py:497-503 | the stored expiry never moves back nor past 30 days from the login |
| Auth.CappedIffLogin | backend/http_server.py:491-501 | an accepted user's session has a time after which no run accepts it exactly if a login began it |
| Auth.RenewedForEver | backend/http_server.py:497-503 | for every n, a session that no login began is accepted n fortnights later in a run that only renews it |
| Auth.UncappedReachable | backend/stores.py:122-130 | an adopted installation's own session is one |
| Auth.PurgeInvisible | backend/stores.py:109-120 | leaving every purge out of a run changes nothing of what is granted |
| Auth.AuthService.CheckSignature | backend/auth.py:94-108 | timestamp, installation, nonce and signature in that order; a nonce is taken even if the signature is wrong |
| Auth.AuthService.UseNonce | backend/auth.py:110-118 | refuses short and recent nonces, otherwise prunes and records |
| Auth.AuthService.CreateSession | backend/auth.py:121-132 | issues a session exactly to a good signature |
| Auth.AuthService.ValidateSession | backend/auth.py:134-146 | accepts exactly live, unrevoked sessions of live installations |
| Auth.AuthService.RefreshSession | backend/auth.py:148-159 | revokes the session asked for, saving it as a record without user fields, and issues the next |
| Auth.AuthService.Revoke | backend/auth.py:161-167 | revokes, any number of times, saving a record without user fields |
| Auth.AuthService.RevokeInstall | backend/auth.py:169-173 | revokes the installation on a good signature |
| Auth.AuthService.ValidateUserSession | backend/http_server.py:473-509 | renews within the cap, before the user is looked up |
| Auth.AuthService.LogoutUser | backend/http_server.py:523-548 | revokes the session, and says whether it was unrevoked |
| RateLimiter.AllowedIff | backend/stores.py:156-165 | a call is allowed exactly if fewer than the limit were allowed in the window that ends with it, although the table forgets |
| RateLimiter.CloseCalls | backend/stores.py:146-165 | calls less than a window apart are allowed at most up to the limit |
| RateLimiter.FixedWindowRateLimiter.Allow | backend/stores.py:156-165 | the decision and the new table |
| Login.PasswordChecks | backend/http_server.py:436-456 | within less than 600 s at most five attempts for a name reach the password check, from whatever addresses |
| Login.CheckedExactly | backend/http_server.py:442-456 | an attempt reaches the password check exactly if its address has had fewer than ten and its name fewer than five let through in the last 600 s, and name and password are well-formed |
| Login.LoginGate.Admit | backend/http_server.py:442-454 | an attempt refused by address is not counted by name |
| ClientSession.HandledInTime | src/backend_auth.cpp:798-827 | in every run a request sent on a session believed valid and answered in time is handled before the server's expiry |
| ClientSession.WhichMargins | src/backend_auth.cpp:20-21 | a margin suffices exactly if two timeouts are shorter than it and one second |
| ClientSession.ValidMeans | src/backend_auth.cpp:83-88 | a session is valid exactly with 31 s left |
| ClientSession.EnsuredMeans | src/backend_auth.cpp:225-290 | what is asked, kept, stored and dropped, and what is reported, by the answers |
| ClientSession.OkMeansValid | src/backend_auth.cpp:225-290 | exactly when success means that a valid session is held |
| ClientSession.OkWithoutSession | src/backend_auth.cpp:241-255 | answers after which it does not |
| ClientSession.Client.HasValidSession | src/backend_auth.cpp:83-88 | more than 30 whole seconds left |
| ClientSession.Client.StoreSession | src/backend_auth.cpp:261-272 | keeps the session unless it has no token or no life |
| ClientSession.Client.FreshSession | src/backend_auth.cpp:274-290 | anything but a usable answer drops the token |
| ClientSession.Client.EnsureSession | src/backend_auth.cpp:225-259 | nothing, a refresh, or a new session, by what is held and answered |
| StoreModels.TokensAgree | backend/pgstores.py:411-479 | rows with an owner column answer as the two dictionaries do, and owners are of existing rows |
| StoreModels.InstsAgree | backend/pgstores.py:21-95 | the same for installations and their users |
| StoreModels.SessionsAgree | backend/pgstores.py:98-203 | the same for sessions, the user column always mirroring the payload |
| StoreModels.ConnsAgree | backend/pgstores.py:300-408 | the same for connections, whose user column is not kept up but not read either |
| StoreModels.TxnsAgree | backend/pgstores.py:206-297 | the same for transactions, consumed by a load and a save |
| StoreModels.StatesStayDistinct | backend/stores.py:246-253 | states drawn anew stay distinct |
| StoreModels.OneCandidate | backend/stores.py:246-253 | so that a lookup by state has one candidate, in whatever order rows are listed |
| StoreModels.SameAnswers | backend/stores.py:35-337 | both implementations answer every call of every sequence of calls alike |
| StoreModels.TokensAnswer | backend/stores.py:50-70 | after any calls a row holds the last pair saved and the last owner set while it was there, since it was last deleted |
| StoreModels.InstsAnswer | backend/stores.py:180-215 | the same for an installation and its user, who outlives creating it anew |
| StoreModels.SessionAfter | backend/stores.py:81-130 | what each call leaves of each session |
| StoreModels.DeletionAnswer | backend/stores.py:91-107 | deletions answer by how much the table shrank |
| StoreModels.SessionAnswer | backend/stores.py:84-130 | adoption answers how many sessions the installation has |
| StoreModels.PurgeAnswer | backend/stores.py:109-120 | a purge answers the expired, and the rest of what is gone |
| StoreModels.ConnectionAfter | backend/stores.py:286-337 | what each call leaves of each connection |
| StoreModels.ConnectionAnswer | backend/stores.py:296-337 | exactly who is in each list |
| StoreClasses.InMemoryTokenStore.SetOwnerOf | backend/stores.py:60-66 | records an owner exactly if the row exists |
| StoreClasses.InMemoryTokenStore.Delete | backend/stores.py:56-58 | deletes the pair and its owner |
| StoreClasses.PgTokenStore.Save | backend/pgstores.py:415-431 | replaces the pair and keeps the owner |
| StoreClasses.InMemorySessionStore.PurgeExpired | backend/stores.py:109-120 | removes exactly the dead rows; the counts are disjoint and add up to what is gone |
| StoreClasses.InMemorySessionStore.DeleteForUser | backend/stores.py:91-99 | removes the user's rows one by one and counts them; none for an empty id |
| StoreClasses.InMemorySessionStore.SetUserIdForInstallation | backend/stores.py:122-130 | marks exactly the installation's rows and counts them |
| StoreClasses.PgSessionStore.PurgeExpired | backend/pgstores.py:148-167 | the same result in one pass over all rows |
| StoreClasses.PgSessionStore.DeleteForUser | backend/pgstores.py:169-182 | the same by payload, not by column |
| StoreClasses.PgSessionStore.SetUserIdForInstallation | backend/pgstores.py:184-203 | marks payload and column of exactly the installation's rows |

## Left out

- Managed apply (its login gate and mode switches can return without finishing a platform),
  Facebook's automatic preparation and end, Qt widgets, and the interim "Retrying…" label.
- Backoff delays: a timer fires, once; how long it takes is not modelled.
- `src/relay_manager.cpp`, `src/secure_store.cpp`, `backend/token_crypto.py`, HMAC, SHA-256,
  PBKDF2, HTTP parsing, TLS, configuration, logging and migrations.
- `backend/prodstores.py`: its token store drops the owner when it saves, so it does not
  agree with the other two.
- The remote revocations that follow an erasure or a disconnect: the model returns the rows
  to revoke (`pending`) and stops there.
- Exceptions of stores during erasure and cleaning, which the code answers by skipping a row.
- `erase_user` and `_delete_guarded` repeat the same deletion; here `DeleteGuarded` serves
  both, with the owner check only on behalf of a user.
- Unbounded lists of rows are sets, since every order of deleting them is shown to come to
  the same; sorting them is left out.
- Classes hold their fields in one value (`st`, `db`, `held`), updated field by field;
  aliasing between stored and returned dictionaries is left out, as the stores copy.
- `StoreClasses` has the token and session stores; the connection, installation and
  transaction stores of both implementations are on values, in `StoreModels`. There a lookup
  by state answers the set of candidates.
- PgTxn: does not model another call between the load and the save of a consumption.
- Purge and login in `Auth` act on the shared session table only; what a login does to
  connections is in `Ownership`. A user's token used as an installation's bearer is refused,
  where the code fails on a missing key.
- SingleFlight: does not model providers that keep the refresh token; a token counts as
  redeemed when the reply arrives.
- One clock reading stands for several within `AuthService` calls.
- Waited: what other threads do to the counter during a wait is a number per arrival; the
  interleavings themselves are in `PoolProtocol`.
