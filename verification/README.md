# Verified model of the access-control database, the credential codecs and the chart URLs

This project models how the service keeps users, passkeys, sessions, WebAuthn challenges, one-time access
links, app tokens and security events in D1, and proves what its guarded SQL guarantees over every
interleaving of requests.  It also models the hand-written codecs (MD5, base64url, the 53-bit id generator,
the constant-time comparison) and the normalisation of chart URLs on the client against the validation on
the server.  `dafny verify dfyconfig.toml` checks everything.

## How it is built

| files | what they hold |
|---|---|
| Schema, Atomic, Retention | rows, tables and SQLite's constraints; the meaning of each atomic step as a function of the database; the batched cleanup |
| Store | a class with the tables and the `changes()` register; each repository method statement by statement, proved to compute its function of Atomic, rollbacks included |
| Protocol, Runs | the steps of all requests as one action type; runs as arbitrary interleavings, with a log of what ever happened |
| Integrity, Guarding, History | what every step keeps: the constraints, the invariants behind the guards, and what may become of a row |
| Ledger, Guarantees | the theorems over whole runs |
| Provenance | who was entitled to what a step created |
| Effects | what each step does, told on the rows alone and not in the terms of Atomic: exactly when it succeeds and every row it writes |
| Journeys | an open link, or a passkey, leads to a session in any run |
| Refusals, Mishaps, Isolation | what a refused batch leaves behind; concrete runs to each surprise below; how far wipe and delete reach |
| Sweeping, Aging, Interleaving | the batched cleanup converges to the exact sweep; it never starves; and it catches up in the midst of any run |
| Invisible, Bisimulation, Transparency | a cleanup is invisible to every later request |
| Throttle | throttled session tracking against exact tracking |
| JsNumbers, Md5, Base64Url, SafeId | JavaScript number arithmetic and the codecs in it |
| Calendar, Charts, ChartReading | dates and chart URLs; what client and server read, told on the pairs themselves |

A `d1.batch` is one atomic step; a single statement is another, so a SELECT and the UPDATE after it can be
separated by any number of other steps.  A step's inputs are arbitrary, which covers whatever an earlier
SELECT returned, however stale.  The class runs a batch with `changes()` and restores the tables when a
constraint fails.

## What is taken for granted

- Ids, tokens and challenges are freshly drawn, and SHA-256 is injective on the values used; hashes are numbers.
- A request commits each of its steps within one hour of reading its clock, and never reads a time ahead of
  the world's clock.  Commit order may otherwise disagree with the order of the readings.
- Challenges live at most 600 seconds, the configured maximum (`src/worker/auth/config.ts:62-65`).
- A completed authentication consumed a challenge of its own, and the verified signature counter exceeds the
  one read or both are zero (section 6.1.1 of Web Authentication Level 2).
- The sine table of MD5 is a given table of 64 words.  `Math.ceil` of a quotient by 64 is exact.
- `Date.parse` reads every real date of the years 0 to 9999; nothing is assumed of other texts.  The chart
  clock reads a date from 1970-01-30 to 9999-12-31.

## Where the code does something else than it seems to promise

- A refused `completeRegistration` is not always a no-op: if the link was consumed in this very millisecond,
  its last statements take the link for their own and open a session.  `Refusals.RefusedRegistrationOpens`
  says exactly when; `Mishaps.OrphanSession` is a run.
- A refused `deletePasskey` can delete: its last statement looks only at `updated_at`.
  `Ledger.LastPasskey` and `Refusals.DeleteAllOrNothing` say exactly when; `Mishaps.LastPasskeyGone` is a run.
- A refused `setUserDisabled` signs its target out, and the only target it can refuse so is the last enabled
  administrator.  `Refusals.RefusedLockEvicts` says exactly when; `Mishaps.NobodySignedIn` is a run.
- A lock whose actor was deleted meanwhile fails on the event's foreign key and rolls back.
- `revokeAccessLink` is the one operation that a cleanup can change the answer of (`Bisimulation.OnlyLongExpired`);
  `Mishaps.OneAnswerChanges` is a run.
- While the throttled write of a session's last access is pending, a request after a gap of a millisecond can be
  refused as idle.  `Throttle.RefusedWhilePending` and `Throttle.GapsAccepted` say exactly when;
  `Throttle.PendingGapRefused` is a run.
- The later statements of `wipeReaderData` and `deleteAccount` look for their event by id and kind; were a drawn id to
  collide with an old event of that kind, a refused call would still delete (`Store.StaleWipe`, `Store.StaleDelete`).
- `timingSafeEqual` compares lengths as 32-bit numbers (`SafeId.TimingSafeEqual`).

## Model

| member | source | states |
|---|---|---|
| `Store.Database.IssueAuthenticationChallenge` | src/worker/auth/repository.ts:735-754 | The INSERT stores an unconsumed challenge bound to no user and no link, or fails on a key collision or a past expiry and changes nothing. |
| `Store.Database.FindAuthenticationChallenge` | src/worker/auth/repository.ts:756-788 | The SELECT finds a row exactly when the challenge is unconsumed, unexpired, for authentication, and some enabled user holds the presented credential; the passkey it returns is that user's. |
| `Store.Database.ConsumeAuthenticationChallenge` | src/worker/auth/repository.ts:792-818 | The UPDATE re-tests everything the SELECT tested, in its own step, and consumes that one challenge or nothing. |
| `Store.Database.CompleteAuthentication` | src/worker/auth/repository.ts:863-958 | Three chained statements: compare-and-set of the signature counter of the user's passkey, the session, the event; the new state and the outcome for every input, collisions and rollbacks included. Never an invariant error. |
| `Store.Database.FindAccessContext` | src/worker/auth/repository.ts:960-995 | Finds a link exactly when an open, unexpired link of an enabled user bears the token. |
| `Store.Database.IssueAccessChallenge` | src/worker/auth/repository.ts:997-1031 | A challenge is issued only for an open, unexpired link of an enabled user, with the link's user and purpose. |
| `Store.Database.IssueAuthenticatedRegistrationChallenge` | src/worker/auth/repository.ts:1059-1113 | Link and challenge of a signed-in user; the second statement does not test changes(), so a colliding link id of one's own would let it through alone. |
| `Store.Database.FindRegistrationChallenge` | src/worker/auth/repository.ts:1151-1202 | The SELECT finds the challenge exactly when the consuming UPDATE, run at once, would succeed, although only the SELECT asks for the purpose: in a constrained database no consumable challenge of a link is for authentication. |
| `Store.Database.ConsumeRegistrationChallenge` | src/worker/auth/repository.ts:1206-1241 | Consumes exactly that challenge, or refuses with AccessLinkInvalid or Forbidden and changes nothing. |
| `Store.Database.RedeemStatements` | src/worker/auth/repository.ts:1278-1354 | The first three statements: passkey, consumed link and, in a recovery, every unrevoked session of the user revoked; the counts of the first two are both 1 or both 0. |
| `Store.Database.CompleteRegistration` | src/worker/auth/repository.ts:1260-1444 | The whole batch of four or five statements, of which the last two look at rows and not at changes(): its outcome and its new state for every input. |
| `Store.TailMeaning` | src/worker/auth/repository.ts:1355-1420 | What the two unchained statements do after a redemption and what they can still do after a refusal, in terms of the state before the batch. |
| `Store.AdvanceShape` | src/worker/auth/repository.ts:868-891 | The counter update hits at most one row, and leaves behind the row the next statement looks for exactly when it hits one. |
| `Store.Database.FindSession` | src/worker/auth/repository.ts:1446-1468 | Returns a session exactly when an unrevoked, unexpired, not idle session of an enabled user bears the token. |
| `Store.Database.TouchSession` | src/worker/auth/repository.ts:1475-1494 | The throttled UPDATE of the last access time, in its own step. |
| `Store.Database.RevokeSession` | src/worker/auth/repository.ts:1513-1556 | Revokes the unrevoked session bearing the token and records one event, or does nothing. |
| `Store.Database.CountPasskeys` | src/worker/auth/repository.ts:1582-1598 | The count that a delete reads before its batch, and may hold stale. |
| `Store.Database.DeletePasskey` | src/worker/auth/repository.ts:1606-1669 | The batch of UPDATE, event and DELETE, whose DELETE tests only the timestamp: outcome and new state for every input. |
| `Store.Database.FindDuplicate` | src/worker/auth/repository.ts:1671-1688 | The read tells, for an administrator and fresh keys, exactly whether the enrolment batch run at once would fail on a constraint or succeed. |
| `Store.Database.CreateEnrollmentLink` | src/worker/auth/repository.ts:1691-1769 | User, link and event together, if the actor is an enabled administrator when the batch runs; otherwise nothing. |
| `Store.Database.CreateRecoveryLink` | src/worker/auth/repository.ts:1771-1833 | Link and event together for an enabled target and an enabled administrator; otherwise nothing. |
| `Store.Database.RevokeAccessLink` | src/worker/auth/repository.ts:1835-1881 | Revokes an open link and records one event; otherwise nothing. |
| `Store.Database.CreateAppToken` | src/worker/auth/repository.ts:1929-1994 | Token and event together for an enabled user, or nothing. |
| `Store.Database.RevokeAppToken` | src/worker/auth/repository.ts:1996-2052 | Revokes the user's own unrevoked token and records one event, or nothing. |
| `Store.Database.CreateInitialAdminLink` | src/worker/auth/operator.ts:121-219 | Administrator, link and event together, only into an empty users table. |
| `Store.Database.CreateOperatorRecoveryLink` | src/worker/auth/operator.ts:221-290 | Recovery link and event for an enabled administrator, or nothing. |
| `Store.Database.FindTarget` | src/worker/account/repository.ts:488-508 | What the early answer says about the batch run at once: not-found and already-done mean that it would update no user; without an early answer it would be refused exactly when it locks the last enabled administrator. |
| `Store.Database.SetUserDisabled` | src/worker/account/repository.ts:509-571 | The guarded update and its event, then two revocations that run whether or not the guard let the update through. |
| `Store.Database.WipeReaderData` | src/worker/account/repository.ts:257-338 | The six statements for every input, a colliding event id included: the later ones look for the event by id and kind, so only an old wipe event under the drawn id lets them run when the first is refused. |
| `Store.Database.DeleteAccount` | src/worker/account/repository.ts:340-427 | Event, jobs, user row with everything that cascades from it, orphaned feeds; conflict or not-found otherwise; and what an old deletion event under the drawn id lets a refused deletion do. |
| `Store.Database.CleanupRetainedRecords` | src/worker/auth/repository.ts:614-733 | The eight DELETEs in order, each of at most the batch size; the count test never fails. |
| `Retention.OldestComeFirst` | src/worker/auth/repository.ts:620-732 | LIMIT takes rows that come first by their timestamp and then id. |
| `Effects.ConsumesToRegister` | src/worker/auth/repository.ts:1206-1241 | On the rows: a registration challenge is consumed exactly when it is unconsumed and unexpired, its link is open and unexpired and of an enabled user, and the caller either gives that link's token or is the user who made the link for himself; nothing else changes, and the refusal depends on the proof. |
| `Effects.Registers` | src/worker/auth/repository.ts:1260-1444 | On the rows: a registration succeeds exactly for a caller so entitled to an open, unexpired link of the very user and purpose, with keys not yet taken; the passkey row, the link, each session (a recovery revokes all of the user's) and the event afterwards. |
| `Effects.RefusedToRegister` | src/worker/auth/repository.ts:1355-1443 | On the rows: every effect and every answer of a refused registration; no passkey is stored and no link consumed. |
| `Effects.SignsIn` | src/worker/auth/repository.ts:863-958 | On the rows: a sign-in succeeds exactly when the passkey that was read is unchanged in credential, user and counter and its user is enabled, whatever the new counter, also zero after zero; the passkey row, the session and the event afterwards, everything else untouched. |
| `Effects.ConsumesToSignIn` | src/worker/auth/repository.ts:792-818 | On the rows: consumed exactly when unconsumed, unexpired, for authentication, and an enabled user has the credential. |
| `Effects.IssuesChallenge` | src/worker/auth/repository.ts:735-754 | On the rows: issued exactly when id and hash are new and the expiry is ahead; the row. |
| `Effects.IssuesForLink` | src/worker/auth/repository.ts:997-1031 | On the rows: issued exactly for an open, unexpired link of an enabled user; the row names link, user and purpose. |
| `Effects.IssuesForSelf` | src/worker/auth/repository.ts:1059-1113 | On the rows: an enabled user gets an enrolment link made by and for himself, and its challenge. |
| `Effects.Enrolls` | src/worker/auth/repository.ts:1691-1769 | On the rows: an administrator's new user with the flag asked for, and an open link of purpose enrolment for that user with the caller's token and expiry. |
| `Effects.Recovers` | src/worker/auth/repository.ts:1771-1833 | On the rows: an open link of purpose recovery for the enabled target, made by the administrator, with the caller's token and expiry. |
| `Effects.Boots` | src/worker/auth/operator.ts:121-219 | On the rows: into an empty users table only, an administrator and his enrolment link, made by nobody. |
| `Effects.OperatorRecovers` | src/worker/auth/operator.ts:221-290 | On the rows: a recovery link for an enabled administrator, made by nobody. |
| `Effects.EndsLink` | src/worker/auth/repository.ts:1835-1881 | On the rows: an administrator revokes a link that is neither consumed nor revoked; that row and one event change. |
| `Effects.MakesToken` | src/worker/auth/repository.ts:1929-1994 | On the rows: an enabled user's token with its two hashes, neither taken before. |
| `Effects.EndsToken` | src/worker/auth/repository.ts:1996-2052 | On the rows: only the caller's own unrevoked token is revoked, and stamped. |
| `Effects.FindsSession` | src/worker/auth/repository.ts:1446-1468 | On the rows: a session is found exactly when unrevoked, unexpired, accessed within 604 800 000 ms and of an enabled user. |
| `Effects.SeesSession` | src/worker/auth/repository.ts:1475-1494 | On the rows: the stored time moves exactly when such a session was last written 900 000 ms ago or earlier. |
| `Effects.EndsSession` | src/worker/auth/repository.ts:1513-1556 | On the rows: exactly the one unrevoked bearer of the token is revoked. |
| `Effects.DropsPasskey` | src/worker/auth/repository.ts:1606-1669 | On the rows: deleted exactly when its enabled user has another; the refusal that deletes, and that each other refusal changes nothing. |
| `Effects.Locks` | src/worker/account/repository.ts:509-571 | On the rows: a lock succeeds exactly for an enabled user who is not the only enabled administrator, and sets `disabled_at` to its time on that row alone; every session and link afterwards, refused or not. |
| `Effects.Unlocks` | src/worker/account/repository.ts:509-538 | On the rows: an unlock succeeds exactly for a locked user and clears `disabled_at` on that row alone; no other user, passkey, token, session or link changes. |
| `Effects.LockThenUnlock` | src/worker/account/repository.ts:509-571 | A lock and an unlock together leave the users table as it was, row for row, and every passkey and token; what was revoked stays revoked. |
| `Effects.Wipes` | src/worker/account/repository.ts:257-338 | On the rows: a wipe is granted exactly to an enabled user with an unrevoked session of his own made in the last 300 000 ms. |
| `Effects.Deletes` | src/worker/account/repository.ts:340-427 | On the rows: a deletion is granted exactly to such a user who is not the only enabled administrator. |
| `Effects.DeletionIsRecorded` | src/worker/account/repository.ts:340-413 | The one event a deletion adds survives it and names nobody. |
| `Effects.CleanupKeeps` | src/worker/auth/repository.ts:614-733 | In milliseconds: a cleanup takes no challenge before 86 400 000, no link or session before 2 592 000 000, no event before 31 536 000 000 after its use ended, and no link that a remaining challenge names; every row it keeps is as it was. |
| `Effects.CleanupTakes` | src/worker/auth/repository.ts:614-733 | Of each kind of challenges, sessions and events past use one cleanup takes a hundred, or all if there are fewer. |
| `Journeys.LinkStays` | src/worker/auth/repository.ts:1835-1881 | An open link stays as it is through every step but its own revocation or redemption and the locking or deletion of its user. |
| `Journeys.ChallengeStays` | src/worker/auth/repository.ts:1206-1241 | An unconsumed challenge stays as it is through every step but its own consumption and the deletion of its user. |
| `Journeys.LinkLeadsIn` | src/worker/auth/service.ts:367-445 | From any point of any run where a link is open, and whatever other steps come in between that do not close it, lock or delete its user or consume the challenge: whoever has its token gets a challenge, consumes it and registers, and the new session is accepted for seven days or until it expires. |
| `Journeys.PasskeyLeadsIn` | src/worker/auth/service.ts:288-362 | In any run, whatever other steps come in between that do not consume the challenge: a passkey of an enabled user, unchanged since it was read, signs him in, and the new session is accepted for seven days or until it expires. |
| `Integrity.KeepsConstraints` | migrations/0001_initial.sql:8-138 | Every step keeps every UNIQUE, CHECK and FOREIGN KEY constraint of the schema, cascades included. |
| `Guarding.KeepsGuarded` | src/worker/account/repository.ts:340-553 | Every step keeps: some enabled administrator while there are users; unrevoked sessions and open links belong to enabled users; a challenge has its link's user and purpose. |
| `History.StepLater` | src/worker/auth/repository.ts:863-958 | What any step may do to any row of any table: counters do not drop, revocation and consumption are final and keep their time, new rows use only freshly drawn ids and hashes. |
| `Runs.ReachableIsBase` | src/worker/auth/repository.ts:614-2052 | The constraints, the guarded invariants and the freshness bookkeeping hold in every reachable world. |
| `Guarantees.EnabledAdminAlways` | src/worker/account/repository.ts:350-359 | After any run from the empty database, a non-empty users table holds an enabled administrator, and the bootstrap succeeded once if there are users and never otherwise. |
| `Guarantees.DisabledHoldNothing` | src/worker/account/repository.ts:539-553 | After any run, every unrevoked session and every open link belongs to an enabled user. |
| `Guarantees.DisabledTestRedundant` | src/worker/auth/repository.ts:1456-1460 | So the disabled_at test of the session lookup never changes its answer. |
| `Guarantees.NoInvariantError` | src/worker/auth/repository.ts:1278-1443 | After any run, no allowed step but the passkey delete can reach its invariant-error branch; in particular completeRegistration, whose passkey insert never looks at disabled_at, cannot. |
| `Guarantees.ConsumedAtMostOnce` | src/worker/auth/repository.ts:756-861 | In any interleaving, each challenge id is successfully consumed at most once. |
| `Guarantees.MintedWithinConsumed` | src/worker/auth/service.ts:333-362 | Sessions minted by authentication come from distinct consumed authentication challenges, so they never outnumber them. |
| `Guarantees.OnePasskeyPerLink` | src/worker/auth/repository.ts:1278-1333 | Over any run, the passkeys ever inserted and the links ever consumed are in one-to-one correspondence. |
| `Guarantees.SettledForever` | src/worker/auth/repository.ts:1842-1848 | A link once consumed or revoked has that one fate, not both, and keeps it and its time in every later state of the run: none reopens. |
| `Guarantees.NeverEmptyAgain` | src/worker/auth/operator.ts:141-150 | Once there is a user there always will be one, and the bootstrap never succeeds again. |
| `Guarantees.RecoveryLeavesOne` | src/worker/auth/repository.ts:1334-1386 | After a successful recovery the user's only unrevoked session is the new one. |
| `Guarantees.EvictedForever` | src/worker/auth/repository.ts:1334-1354 | Every session token the user was ever given before a successful recovery, or before any attempt to lock the account, refused or not, whether its row is still there or not, is rejected in all later states, whatever happens next, reactivation included. |
| `Guarantees.DeadForever` | src/worker/auth/repository.ts:1446-1467 | The token of a session once revoked is never accepted again, in any later state at any time. |
| `Guarantees.HoldersKeepOne` | src/worker/auth/repository.ts:1606-1656 | For each user by himself: if no delete of his own comes in the very millisecond in which his only passkey was last written, then after any run he has a passkey if he ever had one and is still registered, whatever others do. |
| `Ledger.LastPasskey` | src/worker/auth/repository.ts:1606-1656 | Per step, exactly when a user's last passkey goes: such a coinciding delete, or the account's own deletion. |
| `Guarantees.CountersNeverDrop` | src/worker/auth/repository.ts:869-891 | A stored signature counter never decreases over any run (section 6.1.1 of Web Authentication Level 2). |
| `Guarantees.SecondReadIsStale` | src/worker/auth/service.ts:344-362 | Of two completions holding the same counter value, the second fails and changes nothing once the first advanced it, however much happens in between. |
| `Ledger.RedeemsOne` | src/worker/auth/repository.ts:1278-1333 | A completion reports success exactly when it inserts its passkey and consumes its link, together. |
| `Ledger.NoOtherRedeems` | src/worker/auth/repository.ts:1300-1333 | No other step inserts a passkey or consumes a link. |
| `Ledger.ConsumesOne` | src/worker/auth/repository.ts:792-818 | A consuming step reports success exactly when it consumes its own challenge, which was unconsumed. |
| `Provenance.NewUsers` | src/worker/auth/repository.ts:1691-1718 | A user row appears only by the bootstrap of an empty table or by an enabled administrator's enrolment, with the administrator flag that was asked for. |
| `Provenance.NewLinks` | src/worker/auth/repository.ts:1781-1800 | A link appears only open, made by the operator, an enabled administrator, or an enabled user for himself, and never as a recovery of a disabled account. |
| `Provenance.NewSessions` | src/worker/auth/repository.ts:892-927 | A session appears only for an enabled user, who hit a passkey of his own with the counter it then had, or whose link is consumed at that very time. |
| `Refusals.AllOrNothing` | src/worker/auth/repository.ts:868-957 | The chained batches (authentication, session revocation, enrolment, recovery, link revocation, tokens, operator) leave the database as it was or add exactly one security event; never an invariant error. |
| `Refusals.DeleteAllOrNothing` | src/worker/auth/repository.ts:1606-1669 | The passkey delete is all-or-nothing exactly when the stored timestamp does not coincide with a delete whose guard fails; what it does in that case. |
| `Refusals.RefusedRegistrationOpens` | src/worker/auth/repository.ts:1355-1420 | A refused registration leaves a session behind exactly when the link already carries this very timestamp as its consumption time (and the user is enabled and a session was asked for). |
| `Refusals.RefusedLockEvicts` | src/worker/account/repository.ts:539-553 | A refused lock changes the database exactly when its target is the last enabled administrator and is signed in or holds an open link; the target then holds nothing live. |
| `Mishaps.OrphanSession` | src/worker/auth/repository.ts:1355-1386 | A concrete run from the empty database, both challenges issued and consumed: two completions of one link in one millisecond; the second is told AccessLinkInvalid and leaves an accepted session. |
| `Mishaps.LastPasskeyGone` | src/worker/auth/repository.ts:1655 | A concrete run from the empty database: one of two passkeys signs in, and in that millisecond two deletes that both counted two passkeys arrive; the second reports an invariant error and takes the last passkey away. |
| `Mishaps.NobodySignedIn` | src/worker/account/repository.ts:539-553 | A concrete run: two administrators lock each other; the refused request signs the survivor out, and nobody is left signed in. |
| `Isolation.WipeIsOwn` | src/worker/account/repository.ts:280-335 | What the wipe keeps: exactly the other users' subscriptions, categories, imports and items with their jobs, and exactly the feeds they read; no feed is left without a subscriber. |
| `Isolation.WipeIsolates` | src/worker/account/repository.ts:257-338 | A wipe does nothing at all, or exactly that. |
| `Isolation.DeleteIsolates` | src/worker/account/repository.ts:340-413 | The deletion of an account does nothing at all, or exactly that to the reader tables. |
| `Isolation.DeleteSparesOthers` | src/worker/account/repository.ts:340-413 | Refused, it changes nothing; done, no passkey, session, link, challenge or token of the user is left and exactly the others' remain, untouched but for the creator and the event references that named him. |
| `Sweeping.Converges` | src/worker/auth/repository.ts:614-733 | j rounds that suffice for the challenges and k more for the rest reach the exact sweep: every row past its cutoff gone, every other row kept, despite LIMIT and NOT EXISTS. |
| `Sweeping.SweepsIff` | src/worker/auth/repository.ts:645-700 | Some number of rounds reaches the sweep if and only if no challenge short of its cutoff holds back a link past its own. |
| `Aging.AgesStep` | src/worker/auth/repository.ts:1003-1015 | Every step keeps the age bounds: a challenge is issued before its link expires, lives at most 600 seconds, and expires at most that and one lag after its link closed. |
| `Aging.NeverStarves` | src/worker/auth/service.ts:37-42 | Hence in every state of every run no live challenge holds back a past link, and the rounds reach the sweep, with the cutoffs of any one moment. |
| `Interleaving.StepNoneOlder` | src/worker/auth/repository.ts:614-733 | No step of any kind makes a row past the cutoffs of an earlier moment: of each of the eight kinds they only become fewer. |
| `Interleaving.CleanupsCatchUp` | src/worker/auth/service.ts:278-286 | From any point of any run and whatever steps fall in between: once as many cleanups have run as the rows past the cutoffs of that moment need, j for the challenges and k for the rest, none of them is left, nor any other row past those cutoffs. |
| `Bisimulation.StepAlike` | src/worker/auth/repository.ts:614-1882 | Two databases that agree on live rows get the same answer to every step but a link revocation, and stay alike. |
| `Bisimulation.OnlyLongExpired` | src/worker/auth/repository.ts:1842-1848 | A link revocation tells them apart exactly when the link is open in one of them only, where it expired at least a day ago. |
| `Transparency.TwinsAlong` | src/worker/auth/repository.ts:614-733 | A run and the same run with a cleanup inserted pass, after it, through worlds that differ only in rows past their use. |
| `Transparency.RunStaysPossible` | src/worker/auth/service.ts:278-286 | Wherever in a run a cleanup is inserted, the rest of the run remains possible, step for step. |
| `Transparency.CleanupIsInvisible` | src/worker/auth/service.ts:278-286 | Every later step of the run is answered as it would have been without the cleanup, link revocations aside. |
| `Transparency.LookupsNeverDiffer` | src/worker/auth/repository.ts:1446-1468 | At every later point of the run, session and link lookups find the same rows, and the same challenges are fit to be consumed, with and without the cleanup. |
| `Transparency.NoDanglingChallenge` | src/worker/auth/repository.ts:645-700 | A cleanup never leaves a challenge that points at a deleted link. |
| `Mishaps.OneAnswerChanges` | src/worker/auth/repository.ts:1842-1848 | A concrete run from the empty database after which the revocation of a long expired link succeeds, but is not found once a cleanup has run. |
| `Throttle.WriteIsTouch` | src/worker/auth/repository.ts:1475-1494 | The tracker's write is the repository's UPDATE, and its CHECK cannot fail. |
| `Throttle.SandwichedStep` | src/worker/auth/repository.ts:1446-1494 | Any interleaving of lookups, delayed writes and revocation keeps: stored time at most the true last access, and less than 15 minutes behind every access that is over. |
| `Throttle.GapsAccepted` | src/worker/auth/service.ts:552-557 | After any run of a session: accepted means a true gap under 7 days. Before expiry and revocation, a gap of at most 7 days minus 15 minutes is always accepted if measured from the last access whose write is over; if measured from the true last access, exactly when the stored time is within 7 days, so always unless that access has yet to write. |
| `Throttle.RefusedWhilePending` | src/worker/auth/repository.ts:1475-1494 | In every state of the session, such a true gap is refused only while the last access has its write pending and is later than every finished access. |
| `Throttle.PendingGapRefused` | src/worker/auth/repository.ts:1456-1467 | A concrete run: a lookup one millisecond short of 7 days is accepted, and another one a millisecond after it is refused while the first one's write is pending. |
| `Throttle.LookIsFind` | src/worker/auth/repository.ts:1446-1494 | The tracker admits a lookup exactly when the repository finds the session, and a write is due exactly when the UPDATE run at once changes the row. |
| `Throttle.RevokedForGood` | src/worker/auth/repository.ts:1456-1460 | Once revoked, a session is never admitted again, whatever writes are still under way. |
| `Throttle.OneAtATime` | src/worker/auth/service.ts:552-557 | When requests do not overlap, the true gap alone decides before expiry: accepted up to 603 900 000 ms, rejected from 604 800 000 ms on. |
| `Throttle.GapsRejected` | src/worker/auth/service.ts:33-34 | After a gap of 7 days or more every lookup is rejected and stays rejected, whatever writes are still under way. |
| `Throttle.FewWrites` | src/worker/auth/repository.ts:1475-1494 | The writes of one session, times 15 minutes, are less than its lifetime. |
| `Md5.PaddedLength` | src/worker/auth/crypto.ts:97 | The padded length is the least multiple of 64 that is at least n + 9. |
| `Md5.Prepare` | src/worker/auth/crypto.ts:97-105 | The byte buffer is the padded message of sections 3.1 and 3.2 of RFC 1321. |
| `Md5.SumOnce` | src/worker/auth/crypto.ts:137-142 | The exact sum of a signed and three unsigned words, reduced once, is the RFC's chain of additions modulo 2^32. |
| `Md5.RotateLeftRotates` | src/worker/auth/crypto.ts:91-92 | The shift-and-or expression is a rotation, for every amount from 1 to 31. |
| `Md5.Select` | src/worker/auth/crypto.ts:119-133 | The four branches compute the four auxiliary functions of section 3.4, up to the sign JavaScript gives them, and pick the RFC's word. |
| `Md5.MixBlock` | src/worker/auth/crypto.ts:113-146 | The inner loop with its rotating variables computes the 64 operations, whatever registers it starts from. |
| `Md5.Md5Hex` | src/worker/auth/crypto.ts:94-163 | For every byte string the result is the hexadecimal form of the digest of sections 3.1 to 3.5 of RFC 1321; no sum leaves the exact range. |
| `Md5.DigestIsLowercase` | src/worker/auth/crypto.ts:154-162 | The result is always 32 lowercase hexadecimal digits. |
| `Md5.HexInjective` | src/worker/auth/crypto.ts:154-162 | Different digests are written differently. |
| `Md5.HexReadsBack` | src/worker/auth/crypto.ts:154-162 | Read back by the value of each digit character, the text is the digest: every byte is written as its two hexadecimal digits, high one first. |
| `Md5.ReadsWhatIsWritten` | src/worker/auth/crypto.ts:97-116 | A word read from the buffer is the one whose low-order byte comes first, the inverse of how lengths are written. |
| `JsNumbers.DigitByDigit` | src/worker/auth/crypto.ts:119-133 | The bitwise operators, which are computed by recursion on binary digits, have at every position the digit that the truth table of the operator gives. |
| `Md5.FeverKeyReachesVerifier` | src/worker/auth/service.ts:847-860 | A Fever key matches the stored verifier exactly when it spells the digest in some mix of letter cases. |
| `Base64Url.BytesToBase64Url` | src/worker/auth/webauthn.ts:93-103 | The encoder computes the unpadded base64url text of section 5 of RFC 4648. |
| `Base64Url.TestVectors` | src/worker/auth/webauthn.ts:93-103 | The encoder's specification gives the test vectors of section 10 of RFC 4648, and `-` and `_` for 62 and 63. |
| `Base64Url.SameTwentyFourBits` | src/worker/auth/webauthn.ts:93-103 | Three bytes and their four groups are the same 24-bit number, high-order bits first. |
| `Base64Url.Base64UrlToBytes` | src/worker/auth/webauthn.ts:105-126 | The decoder accepts exactly the non-empty alphabet texts whose length is not one over a multiple of four, and returns their octets. |
| `Base64Url.DecodesEncoded` | src/worker/auth/webauthn.ts:93-126 | Decoding undoes encoding on every byte string but the empty one, whose text is refused; the encoder emits only accepted letters and lengths. |
| `Base64Url.EncodesDecoded` | src/worker/auth/webauthn.ts:105-126 | Encoding undoes decoding exactly on texts whose spare bits are zero. |
| `Base64Url.AtobOfPadded` | src/worker/auth/webauthn.ts:116-119 | The padding formula completes every text to a multiple of four that atob reads, except one letter over, which it refuses. |
| `SafeId.Accumulate` | src/worker/auth/crypto.ts:190-194 | No intermediate value leaves the exact integer range; the result is the big-endian value. |
| `SafeId.GenerateSafeId` | src/worker/auth/crypto.ts:179-200 | The id is in 1 to 2^53 - 1 and is the value of the first draw whose masked value is not zero, however many zero draws come first. |
| `SafeId.IdsAreMaskedStrings` | src/worker/auth/crypto.ts:188-194 | Every integer from 0 to 2^53 - 1 is the value of exactly one masked 7-byte string. |
| `SafeId.TimingSafeEqual` | src/worker/auth/crypto.ts:165-177 | The accumulated difference is zero exactly when the lengths agree modulo 2^32 and the bytes agree, the shorter side filled with zeros. |
| `SafeId.SameBitsIsEquality` | src/worker/auth/crypto.ts:165-177 | Below 4 GiB that is equality. |
| `Calendar.ReadsOnlyDates` | src/client/chartState.ts:22-26 | A date text is read exactly as the day it is the text of, whatever the engine does with texts that name no day. |
| `Calendar.DatesAreDays` | src/client/chartState.ts:7-26 | Whole days and dates of the years 0 to 9999 correspond one to one, by the ECMAScript day formula and by counting. |
| `ChartReading.DateSpelled` | src/client/chartState.ts:5-26 | The text of a date is its year, month and day in decimal, in that order. |
| `ChartReading.KnownDays` | src/client/chartState.ts:7-26 | 1970-01-01 is day 0, 2000-02-29 is day 11016, and 2100-02-28 is followed by 2100-03-01, day 47541. |
| `ChartReading.AcceptsExactly` | src/worker/charts/routes.ts:89-147 | For any pairs whatsoever: the server accepts them, for a given scope and window, exactly when the names are known and distinct, at most one scope is named, by the decimal text of an id from 1 to 2^53 - 1, and either no date is named and the window is the last 30, 90 or 365 days, or the range is custom and the window runs from the start date through the end date, 1 to 366 days, none in the future. |
| `ChartReading.ScopeOfState` | src/client/chartState.ts:44-48 | For any URL: the feed read from it, or failing that the category, is the id whose decimal text the first value of the name (or of its older spelling) is. |
| `ChartReading.RangeOfState` | src/client/chartState.ts:40-43 | For any URL: the range is the first one named if it is known, else 30 days. |
| `ChartReading.DatesOfState` | src/client/chartState.ts:49-73 | For any URL with a custom range: the dates are those it names if they are a proper window, else the last 30 days; without a custom range there are none. |
| `ChartReading.SafeIdIs` | src/client/chartState.ts:17-21 | An id is read exactly from its decimal text without leading zeros. |
| `Charts.CanonicalChartSearch` | src/client/chartState.ts:75-92 | The search text holds exactly the pairs of the normal form, in order. |
| `Charts.ChartQuery` | src/client/api/charts.ts:69-82 | The request holds exactly the range, the scope and, for custom ranges, the dates. |
| `Charts.ParseChartQuery` | src/worker/charts/routes.ts:89-147 | The server's validator, its key loop included. |
| `Charts.Normalised` | src/client/chartState.ts:36-73 | Every URL is brought to a normal form: a known range, at most one scope with a safe id, and for custom ranges a window of 1 to 366 days that ends no later than today. |
| `Charts.ReadsBack` | src/client/chartState.ts:36-92 | A normal form read back later is itself exactly when its window does not end in the future. |
| `Charts.FormReadsBack` | src/client/chartState.ts:91 | Serialised pairs without escapes are read back as they were. |
| `Charts.SettlesAfterOneRedirect` | src/client/router.tsx:179-188 | Every URL settles after one redirect, however far the clock moves forward; only a clock that goes back can unsettle a custom window. |
| `Charts.RequestAccepted` | src/worker/charts/routes.ts:89-147 | The server accepts the request built from any normal form exactly when its own day is not before the window's end, for the same scope and the very days. |
| `Charts.WindowIsWholeDays` | src/worker/charts/routes.ts:123-143 | From any URL: accepted, same scope, 1 to 366 whole days. |
| `Charts.AcceptedIsWholeDays` | src/worker/charts/routes.ts:89-147 | Whatever pairs anyone sends: an accepted query is a window of 1 to 366 whole days that ends no later than the server's next midnight. |

## Left out

- Store.Database.DeleteAccount: the label of a refusal is read in the same step, not in the separate SELECT that follows.
- Store.Database.FindAccessContext: the passkey listing it also returns is not modelled.
- Store.Database.IssueAuthenticatedRegistrationChallenge: the reads after its batch are not modelled.
- Guarantees.HoldersKeepOne: assumes away, for the one user it speaks of, the coinciding delete that `Ledger.LastPasskey` singles out, since the claim is false with it.
- Md5.FeverKeyReachesVerifier: takes SHA-256 as an injective function.
- Charts.FormReadsBack: percent-escapes and plus signs are not modelled; canonical searches contain none.
- The listing queries, `adminOverview`, `getProfile` and `updateProfile`, and the token lookups `authenticateAppToken` and
  `authenticateFeverVerifier`: they guard nothing that the invariants rest on.
- SQL text, D1 bindings, row decoding, Effect plumbing, HTTP routes and cookies.
- Names, public keys, transports, CSRF hashes, relying-party columns and event metadata: no guard reads them.
- NOCASE collation: usernames and emails stand for their case-insensitive identities.
- The WebAuthn library, Web Crypto, Turnstile and configuration parsing: parameters or hypotheses.
- Feed refresh, imports, favicons, entries and summaries: feeds, jobs and imports are kept only as wipe and delete reach into them.
- React pages and query caches.
