# A verified model of the event bridge

The program receives identity events, queues signed deliveries for one receiver, and keeps an Apple directory in
step with an identity source over SCIM. This project models the parts of it that keep state and proves what
they guarantee.

* **Queue.** Streams and the durable outbox (`Store`, `Outbox`), the same operations in the program's own
  imperative form (`Database`), and every interleaving of delivery workers, stream mutations, enqueues, operator
  actions, crashes and key changes (`Interleaving`). `DeliveryInvariant` holds what each step keeps;
  `DeliverySafety`, `Streams`, `Retention`, `Fifo` and `Order` hold what follows for whole runs, `Uninterrupted` that
  the steps add up to the operation, and `Scenarios` the runs that show why the theorems are no stronger. Encryption
  is an abstract cipher (`Crypto`).
* **Synchronisation.** User records, differences and update requests (`Records`); the page loop and its indexes
  (`Listing`); the lookups by filter (`Preflight`); reconciliation (`Engine`). `SyncSession` runs the same in place.
  `Accounting`, `Evidence`, `Readings` and `Refusals` prove what holds against a server that answers anything.
  `DirectoryFacts`, `Refinement`, `Plans`, `Ownership` and `Convergence` prove what holds on a directory that stores
  what it is told, in `Ownership` with any calls failing or going unanswered.
* **Coordination.** The single-operation gate and the one-time OAuth states (`Coordination`), the token row
  (`TokenStore`) under its lock (`TokenLock`), and the bounded failure window (`FailureWindow`).

`Witnesses` shows that the laws assumed of the cipher, the codec and the directory can be met.

Some behaviours of the code are kept as they are, and the statements are shaped by them.

* A row requeued from the blocked state may be addressed to a configuration that no longer exists
  (`Scenarios.RequeuedIsCancelled`), and a key change can leave even a never-blocked row so:
  `Streams.RotationStrandsIff` says exactly which updates do it, and `Streams.FixedKeyRunsStayTidy` is about one
  key, under which nothing is ever blocked.
* Rows are not always delivered in the order they were enqueued. An enqueue reads the clock before it waits for its
  transaction, so two of them can commit in one order and be stamped in the other (`Scenarios.StampsReorder`), and
  a pause during a batch lets a younger row pass (`Scenarios.PauseReorders`). `Order.OvertakenIffPostponed` says
  exactly what order there is in every run under a clock that never goes back: by stamp and id among the rows committed
  and stamped when a batch is chosen, but for those postponed or blocked. `Fifo.DeliveredInEnqueueOrder` gives the order of enqueueing where nothing is
  postponed and no enqueue commits with a stamp older than a stored one.
* An externalId of blanks is indexed under the empty key, although duplicates of it are not rejected, and a source
  user without an externalId matches the record there whatever its name (`Accounting.StrangerUpdated`):
  `Accounting.WritesJustified` holds exactly when that does not happen, and index statements are about non-blank
  ones.

In the synchronisation a record is a numbered cell and the indexes hold cell numbers. Overwriting a cell is the
program's overwriting of a shared dictionary: every index sees it.

## Model

| member | source | states |
|---|---|---|
| Crypto.TokenRoundTrip | app/crypto.py:197-269 | a token encrypted here decrypts to itself under its key, and under any other key it is an error, never another token, unless it is empty |
| Crypto.DataRoundTrip | app/crypto.py:206-222 | queued data decrypts to itself under its key and is an error under any other |
| Crypto.LegacyTokenNeverFails | app/crypto.py:240-269 | a stored token without the prefix never raises; one that does not decrypt is taken as plain text |
| Crypto.UnprefixedOpens | app/crypto.py:240-269 | ciphertext stored without the prefix opens to its token under its key and is taken as it is under another |
| Crypto.PrefixedFails | app/crypto.py:240-269 | a prefixed token that does not decrypt is an error if the rest looks like ciphertext, and plain text if not |
| Crypto.SoundCipherExists | app/crypto.py:37-50 | the cipher laws assumed everywhere are met by some cipher, so the theorems are not empty |
| Witnesses.SoundEnvExists | app/crypto.py:197-269 | the laws of cipher and codec together can be met |
| Witnesses.TruthfulExists | app/scim/apple.py:217-240 | any well-formed accounts are those of a truthful directory, in either listing format and start index |
| Text.NormalizeIdempotent | app/scim/apple.py:374-376 | normalizing twice is normalizing once, so keys can be compared with raw or normalized names |
| Text.StripExact | app/scim/apple.py:374-381 | stripping takes only blanks, off both ends |
| Text.NormalizeFoldsCase | app/scim/apple.py:374-376 | two names have one key exactly when they have the same letters up to case, without the blanks around them |
| Store.StreamRoundTrip | app/database.py:94-112 | a stream that is stored reads back as the same stream |
| Store.PayloadRoundTrip | app/database.py:601-609 | a queued payload reads back unchanged under its key and is unreadable, not malformed, under another |
| Store.NewRowsAt | app/database.py:453-469 | an enqueue uses exactly the next consecutive ids, in order, one for each delivery |
| Store.UpdatePatches | app/database.py:333-404 | what each key of a patch does to the newest stream: which address and which token wins, what is kept, and that the stored row reads as the returned stream |
| Store.UpdateQueues | app/database.py:365-377 | pending rows of the stream go if and only if its addressing changes, are due at every clock once a stream is enabled again, and every other row stays as it was |
| Store.SaveReplaces | app/database.py:270-292 | after a save the one stream reads as given, and of the rows exactly the blocked ones are left |
| Store.DeleteRemoves | app/database.py:415-426 | a deletion takes the stream and its pending rows, and nothing else |
| Store.OperatorActs | app/database.py:545-573 | a requeued row is due now with no attempts and no error, and each of the two discards takes exactly its rows |
| Store.EnqueueFailsIff | app/database.py:437-453 | an enqueue fails exactly when a stream is not stored as read and enabled, or when more than 10,000 rows would be stored |
| Store.EnqueueStores | app/database.py:455-470 | otherwise each delivery has its row under the next ids, sealed, pending, unattempted and due from its stamp on |
| Store.BatchIsSmallest | app/database.py:473-488 | a batch is sorted by creation time and id, without repeats, and every due row left out comes after every row in it |
| Outbox.DeliveriesExact | app/events/outbox.py:37-66 | as a set: an event is queued for a stream if and only if the stream is enabled and asks for it |
| Outbox.DeliveriesListed | app/events/outbox.py:37-66 | the deliveries are those of a strictly increasing list of pairs of an enabled stream and an event it asks for, and of all of them: none twice, in the order of the loops, each signed for its stream |
| Outbox.RetryDelayIsCappedExponential | app/events/outbox.py:92-95 | the delay with the clamped exponent is 5 doubled each time and capped at an hour, and is monotone |
| Outbox.TotalDelayClosedForm | app/events/outbox.py:92-95 | n failures wait 5(2^n - 1) seconds in all up to ten, and 5115 + 3600(n - 10) after |
| Outbox.AttemptLeavesDueSet | app/events/outbox.py:106-151 | whatever becomes of an attempt, its row is not due again at that clock and no other row changes |
| Outbox.AttemptDoes | app/events/outbox.py:92-151 | what an attempt leaves of its row, from the payload, the stored stream and the end of the push: blocked and why, removed, postponed by 30 seconds, or retried after 5 seconds doubled for each failure up to 3600 |
| Uninterrupted.TurnIsAttempt | app/events/outbox.py:154-169 | the steps of a worker with nothing between them are one turn of the loop on the tables |
| Outbox.DrainAttemptsAll | app/events/outbox.py:154-169 | a worker alone attempts each selected row once, and exactly those stop being due |
| Outbox.OneRound | app/events/outbox.py:154-169 | one call takes the smaller of 25 and the number of due rows out of the due set |
| Outbox.RoundsDrain | app/events/outbox.py:154-169 | repeated calls empty n due rows in exactly ceil(n/25) rounds |
| Database.Connection.SaveStream | app/database.py:270-292 | the new stream replaces all others and every pending row is gone; blocked rows stay |
| Database.Connection.UpdateStream | app/database.py:333-404 | no stream, refusal without change, or the patched row with pending rows dropped or made due |
| Database.Connection.DeleteStreamById | app/database.py:415-426 | the stream and its pending rows go together, or nothing does |
| Database.Connection.EnqueueOutbox | app/database.py:429-470 | all deliveries are stored or none: every stream is compared and the capacity checked first |
| Database.Connection.InsertRows | app/database.py:453-469 | the insertion loop adds exactly the specified rows |
| Database.Connection.EnqueueEvents | app/events/outbox.py:37-66 | the nested loops enqueue what the specification lists, as one operation |
| Database.Connection.GetDueOutbox | app/database.py:473-488 | repeatedly taking a least due row gives the specified batch |
| Database.Connection.RecordWrite | app/database.py:507-542 | a result is recorded only on a row that is still pending |
| Database.Connection.DeliverItem | app/events/outbox.py:106-151 | the branches and the recorded result for every outcome of a push |
| Database.Connection.DeliverPending | app/events/outbox.py:154-169 | the loop attempts what is still due of the selected rows and counts it |
| Database.Connection.RequeueBlockedOutbox | app/database.py:545-557 | every blocked row, and no other, becomes pending with no attempts |
| Database.Connection.DeleteBlockedOutbox | app/database.py:560-565 | exactly the blocked rows go, and are counted |
| Database.Connection.DeletePendingOutbox | app/database.py:568-573 | exactly the pending rows go, and are counted |
| Database.Connection.QuarantineUndecryptableTokens | app/startup.py:125-161 | collecting ids and then pausing each pauses exactly the streams whose token does not decrypt |
| Interleaving.EventsAreWellAddressed | app/events/outbox.py:49-65 | everything the webhook queues carries the addressing of the stream it was signed for |
| DeliveryInvariant.StepInv | app/events/outbox.py:106-169 | every step of every task, mutator, operator, crash or restart keeps the invariant |
| DeliveryInvariant.RunInv | app/events/outbox.py:106-169 | the invariant holds at every point of every run |
| DeliverySafety.PushSafety | app/events/outbox.py:106-169 | while a push is in flight, in any interleaving, the stored stream is enabled, is the one pushed to and matches the payload, the row is pending and unchanged, and the payload is the one enqueued under that id |
| DeliverySafety.PushExclusive | app/database.py:40-60 | no two deliveries overlap and no locked mutation runs during one |
| DeliverySafety.NoStalePush | app/database.py:270-426 | in the history of every run, no push begins or ends under anything but the last completed configuration, and none of a row already superseded or discarded |
| DeliverySafety.Conservation | app/database.py:429-573 | at every point of every run, crashes included, the ids ever enqueued are the disjoint union of pending, blocked, delivered, cancelled, superseded and discarded |
| DeliverySafety.FatesHaveReasons | app/events/outbox.py:106-151 | in every run a row leaves as delivered only after an accepted push, as cancelled only when it opened and did not match the stored stream, as superseded only by a locked stream change while pending, as discarded only when blocked or by the operator |
| Retention.MutateKeepsIff | app/database.py:365-377 | a completed mutation keeps a row stored and addressed under its key if and only if it does not replace, delete or readdress its stream or discard it; an update may touch the status, or be refused or empty |
| Retention.StatusPatchSpares | app/database.py:365-377 | pauses, resumes and empty patches readdress nothing and drop no row, whatever the keys |
| Retention.ReaddressesUnderOwnKey | app/database.py:365-371 | under the key the row was stored with, what drops pending rows is exactly a patch that changes the delivery configuration |
| Retention.HeldUntilAccepted | app/events/outbox.py:106-151 | through pauses, refused updates, failures, crashes and key changes an addressed row stays stored, pending or blocked, until a push of it returned True, unless its stream is replaced, deleted or readdressed or the row discarded |
| Retention.EnqueuedUntilAccepted | app/database.py:429-470 | the same for everything enqueued in a run, from the enqueue on, with no assumption on the keys used meanwhile |
| Order.IdsNeverReused | app/database.py:429-573 | in every run, what is stored under an id that was given before is the same delivery, stored under it ever since; a row that left does not come back |
| Order.BatchContinues | app/events/outbox.py:154-169 | no row of a batch is passed over: until the worker stops, dies or chooses again, its list only loses its first row, by a recorded result or because that row is not due |
| DeliverySafety.AtMostOneSuccess | app/events/outbox.py:106-151 | with any number of workers a push of an id returns True at most once, plus once for each lost completion |
| DeliverySafety.AttemptsCountFailures | app/database.py:514-557 | stored attempts are the failed pushes since enqueue or last requeue; paused rechecks do not count |
| Streams.QuarantineMakesUsable | app/startup.py:125-161 | after the pass every enabled stream has a usable token, and usable streams and the queue are untouched |
| Streams.UpdateReturnsStored | app/database.py:333-404 | the stream an update returns is the one the next read returns, only its row changes, and it is never enabled with an unreadable token |
| Streams.UpdateRefusedIff | app/database.py:354-363 | an update is refused if and only if it would leave a stream enabled whose token was stored under another key, without a usable new one |
| Streams.EnabledTokensUsable | app/startup.py:125-161 | from a start after quarantine, every enabled stream of every reachable state has a usable token, key changes included |
| Streams.NeverCancelsOrBlocks | app/events/outbox.py:106-124 | when every row is addressed to the stored stream no worker is about to cancel or block |
| Streams.FixedKeyRunsStayTidy | app/database.py:429-470 | with one key and from an empty queue every stored row is pending and matches the one stream, so cancel and block are unreachable |
| Streams.RotationStrandsIff | app/database.py:333-385 | for every patch that is accepted, a matching pending row stays behind unaddressed under the key of the stored token if and only if the update runs under another key and clears the token while keeping the rest of the delivery configuration |
| Streams.RotationStrandsRow | app/database.py:333-385 | an input that does it: clearing the token of a paused stream drops its pending rows if and only if the update runs under the key of the stored token |
| Streams.LimitsHold | app/database.py:429-470 | in every run at most one stream and at most 10,000 rows are stored |
| Fifo.DeliveredInEnqueueOrder | app/events/outbox.py:154-169 | with any number of workers, in runs of enqueues and accepted pushes under a monotone clock in which no enqueue commits with an older stamp than a stored row's, what was delivered is a prefix of what was enqueued and a push is of the oldest row left |
| Order.OvertakenIffPostponed | app/database.py:429-488 | in every run under a monotone clock, with any failures, stream changes, crashes, key changes, operators and enqueues in flight, a pushed row is the oldest pending one by creation time and id, of those committed and stamped by the time its batch was chosen, if and only if no older one of them was postponed or blocked |
| Order.PassedWasPostponed | app/events/outbox.py:154-169 | the same from any tables for the rows that were due when the batch was chosen |
| Scenarios.PauseReorders | app/events/outbox.py:154-169 | a run without failures, with every push accepted, in which a pause and resume during a batch lets a younger row be delivered before an older one |
| Scenarios.StampsReorder | app/database.py:433-436 | a run with one stream, no pause and no failure, with every push accepted, in which two enqueues in flight commit in the opposite order of their stamps and row 1 is delivered before row 0 |
| Scenarios.RequeuedIsCancelled | app/database.py:545-557 | a run in which a row blocked under another key outlives a change of its stream, is requeued and is cancelled |
| FailureWindow.WindowRefinesLog | app/auth.py:49-67 | the 11-slot deque rejects exactly when the unbounded log has more than ten failures in the last 60 seconds |
| FailureWindow.DropExpired | app/auth.py:58-59 | popping from the left removes exactly the leading attempts that are out of the window |
| FailureWindow.Limiter.Record | app/auth.py:49-67 | for any sequence of failures by any clients, the table tracks the log of all of them and decides as the log would |
| Coordination.GateSafe | app/scim/coordination.py:14-34 | for any tasks entering, waiting, cancelled or leaving: at most one holder, flag and event agree with it, and nobody parked at a free gate |
| Coordination.NoLostWakeup | app/scim/coordination.py:22-34 | at a free gate every waiter is released and its next step enters; a call that does not wait is refused exactly when the gate is held |
| Coordination.ExitFrees | app/scim/coordination.py:31-34 | the holder that leaves, normally or by an exception, was the only one, and the gate is free |
| Coordination.Coordinator.TryEnter | app/scim/coordination.py:22-30 | one turn of the wait loop, on the fields |
| Coordination.Coordinator.Release | app/scim/coordination.py:31-34 | leaving clears the flag and releases every parked waiter |
| Coordination.ExchangedAtMostOncePerIssue | app/routes/apple_scim.py:56-82 | in any order of requests a state leads to at most as many exchanges as it was issued, strictly fewer while stored |
| Coordination.StoredSinceIssue | app/routes/apple_scim.py:64-76 | a stored state was issued at its time and nothing has exchanged it since |
| Coordination.CallbackOutcomes | app/routes/apple_scim.py:142-176 | an exchange happens if and only if the gate is free and the state is no older than 600 seconds at both readings; a busy callback leaves it stored, and other live states stay |
| Coordination.IssueStores | app/routes/apple_scim.py:56-67 | issuing a state stores it with its time and drops exactly the others older than 600 seconds |
| Coordination.PendingStates.CleanupExpired | app/routes/apple_scim.py:56-61 | deleting the collected states one by one removes exactly the expired ones |
| Coordination.PendingStates.AddState | app/routes/apple_scim.py:64-67 | issuing a state drops the expired ones and stores it with the time of issue |
| Coordination.PendingStates.ConsumeState | app/routes/apple_scim.py:70-76 | a live state is removed and reported valid, once |
| Coordination.PendingStates.HandleCallback | app/routes/apple_scim.py:142-176 | the order test, gate, consume has the specified effect on the states |
| TokenStore.ExpiryWithinLifetime | app/scim/token.py:31-35 | the saved expiry is after the save, not after the real one, and at most a minute or half the lifetime early |
| TokenStore.SavedFromAnswer | app/scim/token.py:31-50 | an exchange and a granted refresh store what their answer granted, with the expiry of the answer's own lifetime, or of an hour if it has none, less a minute or half of it; no other call stores anything |
| TokenStore.AnswersOf | app/scim/token.py:64-90 | a request is made exactly for an expired token with something to refresh it by, and what each call returns |
| TokenStore.ReturnedIsAlive | app/scim/token.py:64-76 | after any calls, a token returned without a request was granted by an earlier answer and is within the lifetime that answer gave |
| TokenStore.RefreshPresentsLatest | app/scim/token.py:31-49 | every refresh presents the latest refresh token saved, which saves without one never erase |
| TokenStore.OneRefreshServesAll | app/scim/token.py:64-76 | of calls made one after another that would all have found the old token expired, the first refreshes and the others return its token while it is valid |
| TokenLock.ConcurrentIsSerial | app/scim/token.py:64-141 | for any tasks, step by step and cancelled anywhere, before the answer is saved or after: one holder, at most one request under way, presenting the latest saved refresh token; the row, the requests and the result of every call that returned are those of the calls run one after another |
| TokenLock.ConcurrentRefreshShared | app/scim/token.py:64-76 | tasks that find the token expired together, in any interleaving, make one request and all return the new token, if the first is granted one and the others get the lock while it is valid; the first may be cancelled once it has saved it |
| TokenLock.SavingSteps | app/scim/token.py:31-50 | step by step, cancelled after the save or not, the row becomes exactly what the answer granted, and no other step changes it |
| TokenStore.TokenTable.SaveTokens | app/scim/token.py:31-50 | the upsert of the single row |
| TokenStore.TokenTable.GetValidAccessToken | app/scim/token.py:64-141 | the answer, the row and the refresh token presented, for every state of the row and every answer |
| Records.FindPrimaryEmail | app/scim/apple.py:427-451 | one pass finds the first primary address, or else the first address |
| Records.PrimaryEmailIs | app/scim/apple.py:427-451 | the address of a record is that of the first non-empty entry marked primary, or else of the first non-empty one |
| Records.SafeIdIff | app/scim/apple.py:149-157 | the ids accepted are those usable as one path segment, character by character |
| Records.DifferencesAre | app/scim/apple.py:454-541 | there is something to write exactly when the records disagree on an attribute the mode writes, and something to report exactly when on another, attribute by attribute |
| Records.RequestIs | app/scim/apple.py:544-612 | a PUT is the user's record under the account's id without externalId, and a PATCH sets each differing attribute of the mode once, in order, to the user's value |
| Records.UpdateBuiltIff | app/scim/apple.py:544-586 | a request is built exactly when some in-scope difference exists or the mode replaces, so the reconciler cannot meet the "no changed attributes" error |
| Records.UpdateUndoesDiff | app/scim/apple.py:520-586 | in every mode, with the externalId compared or left out, applying the request leaves no in-scope difference and, outside replacement, every other as it was; id and externalId never change |
| Listing.FormatsExclude | app/scim/apple.py:183-204 | no page is accepted in both the standard and the single-page format |
| Listing.IndexUserOk | app/scim/apple.py:166-181 | adding an accepted user keeps ids, names and non-blank externalIds distinct and every key leading to its user |
| Listing.ListingSound | app/scim/apple.py:217-240 | against any server the page loop ends, writes nothing, and if it ends well held exactly the announced number of distinct users, one name entry each |
| Readings.ListingIsPages | app/scim/apple.py:104-240 | against any server, a finished listing is the pages asked for one after another, each consistent with itself and the first total; a sample is one page of Apple's own format |
| Readings.FilteredIffSample | app/scim/apple.py:1067-1074 | the run looks users up, and confirms creations, exactly when the first answer was such a page |
| Preflight.SourceAcceptedIff | app/scim/apple.py:295-311 | the check with its two sets accepts exactly the sources without blank or repeated identities |
| Preflight.LookupAllSound | app/scim/apple.py:337-371 | against any server the preflight writes nothing, and what it accepts is a well-formed index for a valid source |
| Readings.PreflightIsAnswered | app/scim/apple.py:243-371 | against any server, what the preflight accepts was answered for: two consistent lookups of each user that the sample does not contradict, and one read of each account, all agreeing with the index |
| Accounting.EveryUserCounted | app/scim/apple.py:1076-1092 | whatever the server answers, the outcomes add up to the users plus those whose turn made two update calls, to the users exactly with recovery off; invalid requests are errors and reported names are conflicts |
| Accounting.CountersMeanAnswers | app/scim/apple.py:623-734 | whatever the server answers, updates, creations, invalid requests and errors equal the accepted, accepted, 400-answered and failed writes, exactly corrected by the unverified link repairs, unconfirmed creations and unresolved refusals; none of the first without recovery, none of the second with a full listing |
| Accounting.WritesJustified | app/scim/apple.py:768-848 | whatever the server answers, nothing is written if reading failed; and every update is the mode's request for the differences of a record linked to its user or, opted in, the link repair of an unlinked record of its name, if and only if no user without an externalId meets a differing record under the empty key |
| Accounting.RarelyMisled | app/scim/apple.py:928-942 | which it cannot when every source user has an externalId or no listed record has a blank one |
| Accounting.StrangerUpdated | app/scim/apple.py:928-942 | a listed account and a source user of another name for which it does: the account is updated |
| Refusals.NewUserTurn | app/scim/apple.py:874-1004 | against any server, read off its calls: a creation counts at once after a full listing and otherwise only if both lookups and a read show the answered account; a refused one is one conflict if any other number of accounts than one is announced, or if that one is not the user's to take, and otherwise writes to that account only |
| Evidence.HistoryIsTrue | app/scim/apple.py:1058-1095 | whatever the server answers, these writings are exactly the writes among the calls, in order and with their answers, and each record an update was decided on had been shown by an earlier answer |
| DirectoryFacts.ListingTruth | app/scim/apple.py:217-240 | on a truthful directory a listing fails only when a call fails, and a complete one is exactly the directory |
| DirectoryFacts.LookupTruth | app/scim/apple.py:314-324 | a filter lookup finds the owner of an identity and nobody else, and agrees with every truthful sample |
| DirectoryFacts.UpdateEffect | app/scim/apple.py:623-642 | an acknowledged update is applied; an unacknowledged one is applied once or not at all, to its account only |
| Refinement.LookupAllTruth | app/scim/apple.py:337-371 | on a truthful directory the preflight accepts every valid source unless a call fails, and answers for all of it |
| Refinement.ReadServerTruth | app/scim/apple.py:1069-1074 | however the server lists, the loop's index answers for every source user with the directory's account |
| Refinement.FallbackRefinesListing | app/scim/apple.py:928-942 | from any truthful sample, each user is matched to the same account, by the same key, with the same conflict verdict, as with the full index |
| Plans.MatchIsPlan | app/scim/apple.py:928-942 | although earlier turns have overwritten shared records, each match is the one the initial directory determines |
| Plans.Untouched | app/scim/apple.py:1076-1092 | the account a user owns is as it was at the start until that user's turn |
| Plans.OwnedFree | app/scim/apple.py:784-848 | the planned write of a name and a link never takes another account's identity |
| Ownership.LinkEffect | app/scim/apple.py:665-734 | a link repair changes only the link, and reports success only when the directory and the shared record both have it |
| Ownership.RefusedQuiet | app/scim/apple.py:874-925 | recovering a creation refused for a name nobody has writes nothing more, and reports a conflict, or an error if the lookup failed |
| Ownership.CreationVerified | app/scim/apple.py:945-980 | confirming a creation only reads, and confirms every applied one when the calls are answered |
| Ownership.SyncOneTurn | app/scim/apple.py:1076-1092 | a turn changes at most its user's account, whatever fails, and does exactly what is planned when nothing fails |
| Ownership.OwnershipFrame | app/scim/apple.py:1058-1095 | on a truthful directory, whatever calls fail, a run removes nothing, changes no id or non-blank externalId, leaves each account as it was or as the target, link or linked target of its rightful user, and adds only the records of users new to it |
| Convergence.SyncFollowsPlan | app/scim/apple.py:1058-1095 | when every call succeeds, counters, number of writes and resulting directory are functions of the directory found |
| Convergence.ListingFormatIrrelevant | app/scim/apple.py:1067-1074 | pages of any size, a sample, or either start index give the same accounts and counters |
| Convergence.SyncReconciles | app/scim/apple.py:1058-1095 | in all five modes, when every call succeeds and there is no conflict, each source user ends with an account of its externalId: its own record if new, and otherwise agreeing on the mode's attributes, one by one, and as it was in all others |
| Convergence.CountersTally | app/scim/apple.py:784-848 | when every call succeeds, each user's share in every counter is fixed by the accounts found at the start: created, linked, updated, unchanged, reported or a conflict |
| Convergence.Converges | app/scim/apple.py:1058-1095 | in all five modes, when every call succeeds, after a run without conflicts a second one makes no write call, counts every user unchanged and reports the same out-of-scope differences |
| SyncSession.UserIndex.Add | app/scim/apple.py:166-181 | the dictionaries and the id set accept exactly the users that keep identities unique, and stay consistent |
| SyncSession.UserIndex.AddAll | app/scim/apple.py:207-215 | the loop over a page's users, up to the first rejected one |
| SyncSession.CheckSource | app/scim/apple.py:295-311 | the loop with its seen-sets accepts exactly the valid sources |
| SyncSession.ReadPageInto | app/scim/apple.py:226-240 | one turn of the page loop on the dictionaries |
| SyncSession.Session.GetExistingUsers | app/scim/apple.py:217-240 | the page loop terminates for every server and gives the specified listing |
| SyncSession.Session.GetExistingUsersByFilter | app/scim/apple.py:337-371 | the four loops of the preflight give the specified index or failure after the specified calls |
| SyncSession.Session.SendUpdate | app/scim/apple.py:623-662 | the request sent and the counter changed for every answer |
| SyncSession.Session.RepairLink | app/scim/apple.py:665-734 | the write, the read back, the shared record overwritten only when verified, and the counters |
| SyncSession.Session.ReconcileDiffs | app/scim/apple.py:784-848 | the order conflict check, repair, difference, write, with every early exit |
| SyncSession.Session.VerifyFilteredUser | app/scim/apple.py:851-871 | a filter answer is used only when a fresh reading agrees with it |
| SyncSession.Session.RecoverConflict | app/scim/apple.py:874-925 | every exit of the recovery from a refused creation |
| SyncSession.Session.VerifyCreatedUser | app/scim/apple.py:945-980 | the confirmation of a creation by both filters and a read |
| SyncSession.Session.CreateUser | app/scim/apple.py:983-1004 | the answer decides between created, recovery and error |
| SyncSession.Session.SyncUsers | app/scim/apple.py:1058-1095 | the loop over the source has the specified result, and nothing is written when reading fails |

## Left out

- HTTP, TLS, DNS, FastAPI routing, request models and logging: a server is an arbitrary sequence of answers, or a directory with arbitrary failures.
- SQLite: each transaction is one step that happens or does not, and ids are never reused.
- Fernet, JWT signing and the JSON codec: an abstract cipher with a right-key round trip and a wrong-key failure, and a codec with a round trip.
- Text.NormalizeIdempotent: is about ASCII case folding, because `Text.Lower` folds ASCII letters only; stripping removes every character Python counts as space.
- TokenStore.OneRefreshServesAll: is about calls one after another; `TokenLock.ConcurrentRefreshShared` is about their steps in any interleaving.
- Order.OvertakenIffPostponed: is about the rows the worker chose among, and a clock that never goes back; a row committed or made due later waits for the next batch.
- SCIM records of unexpected JSON types, such as a null name: records are typed, and an absent attribute reads as its default.
- Changes other programs make to the Apple directory during a run, and a directory that changes what it was told to store.
- A directory whose filters compare names other than in normalized form: the truthful directory compares as the program does.
- Names and externalIds of source users that are blank or repeated: `Ownership` and `Convergence` are about sources with distinct identities, which the program itself checks only in the filtered preflight.
- Convergence with calls failing in the first run: a failed call is counted as an error, and the second run then still has work.
- Aliasing of records is modelled by cell numbers in a sequence, not by heap references.
- Fairness of the gate and of the token lock: the code promises none. Recreating either for a new event loop is not modelled.
- The delivery loop's polling interval, and the startup checks other than the token quarantine.
- A quarantine pass that raises: the pass is modelled as completing.
- The switch that turns the failure limiter off, and its two-thread use.
- The type check of `events_requested` in a stream patch: the patch is typed.
- Composing a new stream from a request (`prepare_stream`), the event mapper, address masking and URL validation: short case splits.
- Database.Connection.DeliverPending: is about one worker at one clock reading; several workers and a moving clock are in `Interleaving`.
- Database.Connection.QuarantineUndecryptableTokens: requires distinct stream ids, which are the primary key of the table.
