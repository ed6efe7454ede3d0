# Batch payment, administration and account-lease model

A Dafny model of the parts of the service that decide under concurrency or keep data consistent across
stores, with machine-checked proofs of what they promise. Each source routine that changes state in place
is a class method tied to a rule on values; runs are lists of events, so every statement about a run
holds for all interleavings.

## What is modelled

**The batch scheduler** (`GopayBatch*.dfy`). A batch holds items in rounds. One worker repeats: refresh
the sessions in flight, close the task if it may be closed, hand phones of failed items on to queued
ones, or open the lowest pending round. Items start on threads with three locked phases. `GopayBatch`
has the rules, `GopayBatchTask` the class that mutates a task, `GopayBatchRuns` the interleaved runs.
The payment calls are an oracle: an event carries their answers. A stop request may land between any
two atomic sections. `GopayBatchOutcomes` says what single events leave of an item and what becomes of the
phone of one that failed; `GopayBatchLateStop` lets a stop land between any two saves of one worker iteration
and shows that the outcome is again a run of whole sections.

**Administrator sign-in** (`Throttle`, `AdminSessions`, `TotpChallenges`, `ClientAddress`). The failure
throttle with its window, counter and cooldown; sessions with a sliding idle deadline under a fixed
absolute one, checked by a read and a guarded update that other requests may slip between; challenges
for the second factor; and the client address from which a throttle bucket is chosen.

**Access-token leases** (`IsoInstant`, `ClaimLeases`, `ClaimScan`, `ClaimOutcome`). The claim table under
any interleaving of reservations, precheck outcomes, expiry sweeps, releases and reports; the paged walk
over the accounts, and what it hands out and leaves, field by field; and the two expiry tests, one on text
and one on times.

**Settings** (`ConfigStages`, `ConfigUpdate`, `ConfigNumbers`). Three normalisers that check partial updates, each only
when it is touched. `ConfigStages` has the stages for any field and check rules, `ConfigUpdate` the
repository's ranges, words and cross checks, `ConfigNumbers` what they mean for the numbers and words stored.

**Filter presets and fixed groups** (`FilterValues`, `EmailSearch`, `PaymentSelection`, `FilterSettings`,
`PresetAccounts`, `PresetNormalizer`, `PresetState`, `FilterWords`, `PresetReading`, `MigrationPlanner`,
`PresetIntegrity`, `PresetEffects`). The normaliser that reads every version of the stored presets, the planner that moves old fixed presets into group
tables, the consistency of the two stores over whole runs of requests, and what each request decides and does.

**Cookie headers** (`CookieHeader`, with `Text`). Printing a cookie list and parsing it back
(cookie-string, section 4.2.1 of RFC 6265).

## Where the code does less than its text or tests promise

Each of these is stated with its exact condition.

- A stop that arrives while a worker iteration holds its own copy of the task is overwritten by the next
  save of that copy. `GopayBatchLateStop.StopSurvivesIff` says for every moment, from what is stored then,
  whether the stop stands; after the last save of an opened round it does, and the round heeds it.
- An account that has just been given a phone of a failed account holds one that was used before exactly
  when a report on that phone took back the evidence of its use
  (`GopayBatchTheorems.PromotionGivesSpentIff`); `GopayBatchLimits.ForgottenEvidenceReusesPhone` is a run
  in which that happens.
- A batch without items is never closed (`GopayBatchTermination.EmptyBatchNeverEnds`).
- The two throttle write paths differ exactly for a window that starts at the epoch
  (`Throttle.PathsAgreeIff`).
- A claim whose precheck is interrupted blocks its account for good, because the sweep only looks at
  claimed rows (`ClaimLeases.OrphanBlocksForever`).
- A payment reported between the two halves of a release ends as released
  (`ClaimLeases.PaymentOverwrittenIff`, `LostPaymentsExist`).
- A migration run again assigns the same accounts exactly when no account that the first run takes out
  of a migrated group is wanted by one (`MigrationPlanner.RerunSameIff`, `RestartCanDiffer`).
- A preset created at the cap of 80 is reported as created and not saved
  (`PresetIntegrity.CreatedIsSavedIff`).
- Reading stored presets is not idempotent: a method name is stripped of underscores before it is cut to
  80 characters, so a cut behind an underscore leaves a name that the next reading shortens. Reading gives
  its own result again exactly when no cut of a kept method name falls there
  (`PaymentSelection.ReadTwiceIff`, `PresetState.NormalizeIdempotentIff`). A save reads twice, so what it
  writes is stable in every case (`PresetState.LoadAfterSave`), though it may differ from what a load gave
  before (`LongMethodIsChangedBySave`).
- The address of a request can be forged exactly when the forwarding list holds no untrusted hop
  (`ClientAddress.AddressIgnoresPrefixIff`).

## Assumptions

- Random ids and tokens are new whenever they are drawn; signatures, password hashes and code checks
  are answers given from outside.
- One worker runs per batch (the worker set at api/chatgpt.py:2901-2915), and each locked section is
  atomic; so is each SQL statement.
- Text is ASCII where it is trimmed, lowered or split. The database compares timestamps by code unit.
- Floating point text is read and printed by functions of which only one law is used: a printed number
  that was read reads back as the same number (`ConfigUpdate.Lawful`).
- Reading JSON text and the text form of a stored value are given functions; which accounts a parent
  preset admits is a fixed set. The clock stands after the epoch.

## Model

| member | source | states |
|---|---|---|
| GopayBatch.TerminalCountsAddUp | api/chatgpt.py:2411-2428 | when every item is terminal, done, failed, cancelled and stopped add up to the total |
| GopayBatch.ReleasedFromSpec | api/chatgpt.py:2486-2534 | released phones come from failed items that never used them, no active or consumed item holds them, none is released twice and none is forgotten |
| GopayBatchTask.BatchTask.Recount | api/chatgpt.py:2411-2428 | the in-place recount follows terminal snapshots and counts afresh, as the rule on values says |
| GopayBatchTask.BatchTask.ReleasedPhoneItems | api/chatgpt.py:2510-2534 | the loop with its seen set yields exactly the released items, in order |
| GopayBatchTask.BatchTask.PromoteWithReleasedPhones | api/chatgpt.py:2537-2574 | released phones go to queued items pairwise in order; the accounts returned are those items' |
| GopayBatchTask.BatchTask.RefreshActiveItems | api/chatgpt.py:2617-2643 | only active items with a session are asked; answers, HTTP errors and other errors change them as the rule says |
| GopayBatchTask.BatchTask.FinalizeIfComplete | api/chatgpt.py:2755-2798 | the task closes only when it may, with the status its stop mode demands |
| GopayBatchTask.BatchTask.BeginIteration | api/chatgpt.py:2803-2810 | a queued task is saved as running, a closed one is left alone |
| GopayBatchTask.BatchTask.Iterate | api/chatgpt.py:2812-2882 | one worker iteration yields the task and the next action of the decision rule, and writes back exactly the copies the rule lists, in order |
| GopayBatchTask.BatchTask.ChooseRound | api/chatgpt.py:2839-2881 | the lowest pending round is opened, waited for, or left to its timer |
| GopayBatchTask.BatchTask.MarkItemStarting | api/chatgpt.py:2649-2668 | first locked phase: claim a queued item, or refuse it under a stop |
| GopayBatchTask.BatchTask.AdmitItem | api/chatgpt.py:2674-2696 | second locked phase: a session is admitted only for a starting item without a stop request |
| GopayBatchTask.BatchTask.RecordStart | api/chatgpt.py:2698-2730 | third locked phase: the snapshot or the failure is recorded on that item alone |
| GopayBatchOutcomes.MarkLeaves | api/chatgpt.py:2646-2668 | a queued account becomes starting, or stopped or cancelled under the two stops, and nothing else changes |
| GopayBatchOutcomes.AdmitLeaves | api/chatgpt.py:2670-2696 | a session is admitted exactly for a starting item without a stop; under a stop the item is stopped or cancelled |
| GopayBatchOutcomes.RecordLeaves | api/chatgpt.py:2698-2730 | an item follows the phase of its session; a start that failed leaves it failed, with snapshot, phone and round as they were |
| GopayBatchOutcomes.ReportLeaves | api/chatgpt.py:2617-2643 | a terminal phase ends a session's item, an HTTP error fails it, another error leaves it alone |
| GopayBatchOutcomes.FreePhoneIsHandedOn | api/chatgpt.py:2510-2574 | a phone that its failed item never used and nobody holds is given to a queued account at the next decision, or every queued account gets another one |
| GopayBatchOutcomes.HttpErrorHandsPhoneOn | api/chatgpt.py:2634-2643 | a session lost to an HTTP error fails its item and hands its unused phone on in the same iteration |
| GopayBatchOutcomes.FailedStartStays | api/chatgpt.py:2711-2730 | over every run a failed start stays failed with its phone unused |
| GopayBatchOutcomes.FailedStartHandsPhoneOn | api/chatgpt.py:2493-2574 | and at every later decision at which that phone is free and an account is queued, it is handed on |
| GopayBatchOutcomes.RoundStartsAll | api/chatgpt.py:2733-2752 | an opened round starts exactly its queued accounts, each once |
| GopayBatchInvariant.PromoteKeepsInv | api/chatgpt.py:2537-2574 | promotion keeps active phones exclusive and everything in flight in the launched round |
| GopayBatchInvariant.RunKeepsInv | api/chatgpt.py:2646-2883 | every run keeps the scheduler invariant |
| GopayBatchTheorems.ActivePhonesExclusive | api/chatgpt.py:2471-2574 | in every reachable state no two active items hold the same phone key |
| GopayBatchOutcomes.PhonesInFlightDiffer | api/chatgpt.py:2457-2484 | the same in phases and digits: two items starting or in one of the open phases never hold the same digits of country code and number |
| GopayBatchOutcomes.SamePhoneIff | api/chatgpt.py:2474-2481 | two items hold the same phone exactly when the digits of country code and number agree |
| GopayBatchTheorems.PromotionGivesSpentIff | api/chatgpt.py:2493-2574 | over every run, an account just given a phone holds a used one exactly when a report on that phone took back the evidence of use |
| GopayBatchTheorems.RoundBarrier | api/chatgpt.py:2733-2752 | an item leaves the queue only when all items of earlier rounds are terminal, and everything else in flight is in its round |
| GopayBatchTheorems.RoundsNeverRise | api/chatgpt.py:2537-2574 | no event moves an item to a later round or touches a terminal item |
| GopayBatchStop.EachAccountStartsAtMostOnce | api/chatgpt.py:2646-2710 | whatever the interleaving, no account gets a second session |
| GopayBatchStop.ExitLeavesNothingOpen | api/chatgpt.py:2755-2815 | a worker that left leaves only terminal items, counters that split the total, and the status of the stop mode |
| GopayBatchOutcomes.CountersTell | api/chatgpt.py:2411-2428 | when the worker has left, each counter is the number of items with that outcome |
| GopayBatchStop.GracefulStop | api/chatgpt.py:2646-2798 | once a graceful stop holds no session is admitted; at the end the batch is stopped, admitted sessions have their own outcome, every other open item is stopped |
| GopayBatchTermination.WorkerLeaves | api/chatgpt.py:2801-2898 | a batch of n items is closed after at most 3n + 4 decisions taken with sessions ended and waits over |
| GopayBatchTermination.WorkerReturns | api/chatgpt.py:2733-2752 | from every state the threads' own steps, joining and waking up bring the worker to its next decision, unless it has left |
| GopayBatchTermination.CanAlwaysClose | api/chatgpt.py:2801-2898 | from every state of every run some continuation without a stop request closes the batch |
| GopayBatchTermination.EmptyBatchNeverEnds | api/chatgpt.py:2759-2761 | without items and without a stop request the worker never leaves |
| GopayBatchLateStop.IdleIterationChangesNothing | api/chatgpt.py:2812-2877 | an iteration that saves nothing changes nothing and sleeps |
| GopayBatchLateStop.IterationStores | api/chatgpt.py:2812-2881 | an iteration ends with the copy it saved last, and saves nothing after closing |
| GopayBatchLateStop.StopSurvivesIff | api/chatgpt.py:2804-2881 | a stop landing after any number of saves stands exactly when what is stored then leaves nothing more to save; otherwise it leaves no trace |
| GopayBatchLateStop.InterruptedTurnIsARun | api/chatgpt.py:2812-2882 | wherever a stop lands in an iteration, the outcome is the undisturbed iteration with the stop after it, or without it |
| GopayBatchLateStop.InterruptedWakeIsARun | api/chatgpt.py:2803-2810 | a stop landing while the worker wakes up stands exactly when the first save is behind it or not needed |
| GopayBatchLateStop.StandingStopStartsNothing | api/chatgpt.py:2646-2752 | after a stop that stands no session is admitted, also in the round just opened; one that is lost changes no later event |
| GopayBatchLateStop.LostStopExists | api/chatgpt.py:2879-2882 | a stop that lands while the first round is being opened is lost |
| GopayBatchLimits.LiveSessionStoppedIff | api/chatgpt.py:2777-2798 | the graceful stop marks a live session stopped exactly when nothing is active and its phase is in neither table |
| GopayBatchLimits.ForgottenEvidenceReusesPhone | api/chatgpt.py:2493-2574 | a run of a newly created batch in which such a report lets two accounts be admitted on one phone |
| GopayBatchLimits.PauseBetweenRounds | api/chatgpt.py:2867-2881 | a later round opens only when its timer ran out or the clamped interval is zero |
| Throttle.ThrottleLimits | api/auth.py:647-672 | whatever is configured, the three limits lie in their ranges |
| Throttle.PathsAgreeIff | api/auth.py:722-782 | upsert and row lock write the same row exactly when no live window starts at the epoch |
| Throttle.UngatedFailureShortensIff | api/auth.py:726-739 | a failure that did not pass the gate shortens a live block exactly when it opens a new window |
| Throttle.LiveBlockStands | api/auth.py:680-702 | until its end a block stands, whatever is attempted |
| Throttle.WindowBound | api/auth.py:647-754 | one window admits at most maximum + (window - 1) / cooldown failures |
| Throttle.IntervalBound | api/auth.py:647-754 | any interval of length L admits at most L / window + 2 times that |
| Throttle.ThrottleTable.Enforce | api/auth.py:680-702 | an attempt is refused exactly under a live block, with the seconds left |
| Throttle.BucketsAreIndependent | api/auth.py:705-803 | what a bucket holds is decided by its own attempts since its last reset alone |
| Throttle.EveryBucketBounded | api/auth.py:705-803 | in any mix of failures and resets a bucket's counter is its admitted failures since the reset, within the bound of one window |
| Throttle.ThrottleTable.RegisterFailure | api/auth.py:705-754 | the bucket's row becomes the rule's row and no other bucket changes |
| AdminSessions.SessionTimeouts | api/auth.py:101-150 | configured timeouts land in their ranges and the absolute one never undercuts the idle one |
| AdminSessions.FreshTokenVerifies | api/auth.py:392-502 | a token just issued passes its own check exactly until its idle deadline |
| AdminSessions.StoresStaySound | api/auth.py:392-600 | from an empty store on, no interleaving keeps a session past its absolute deadline |
| AdminSessions.AcceptedWereLetIn | api/auth.py:455-502 | over every run, whoever is accepted had current claims within their times, and a live unrevoked row that was theirs |
| AdminSessions.LetInIsAccepted | api/auth.py:489-502 | whoever has that is accepted |
| AdminSessions.ActivityIsNoted | api/auth.py:503-517 | time and address are noted exactly when the last note is five minutes old |
| AdminSessions.PruneDropsOld | api/auth.py:378-388 | pruning drops exactly the sessions whose deadline lies before the given time |
| AdminSessions.WriteBackNeeds | api/auth.py:530-544 | a renewal is written only to a row that is still alive, unrevoked and what was read |
| AdminSessions.SessionsMoveForward | api/auth.py:489-600 | over any interleaving deadlines only rise, never pass the fixed absolute one, and a revocation is final |
| AdminSessions.ActivityWritesAreSparse | api/auth.py:503-543 | every write of the activity time raises it by at least 300 seconds |
| AdminSessions.RevocationTakesEffect | api/auth.py:564-577 | a revocation that found its session live revokes it when it writes, whatever happened in between, and for good |
| AdminSessions.RevokedIsRejected | api/auth.py:489-600 | once revoked, no later read accepts the session |
| AdminSessions.CredentialChangeEndsOldTokens | api/auth.py:603-612 | after version bump and revocation no older token is accepted, not even one whose login was being stored meanwhile |
| AdminSessions.CheckExtends | api/auth.py:489-544 | an accepted check never lowers the deadline nor passes the absolute one, and leaves at least the idle window less the renewal interval |
| AdminSessions.RegularUseKeepsAlive | api/auth.py:489-544 | a session whose pauses stay within the idle window less the renewal interval is accepted until its absolute deadline |
| AdminSessions.PauseEndsSession | api/auth.py:489-529 | after a pause of the idle window, or at the absolute deadline, it is refused however it was used |
| AdminSessions.SessionTable.WriteBack | api/auth.py:530-544 | the write half changes the row only when its conditions still hold |
| AdminSessions.SessionTable.RevokeAllSessions | api/auth.py:579-600 | the loop revokes every live row, leaves revoked ones, and counts the changes |
| TotpChallenges.ExchangesNeverExceedChallenges | api/auth.py:1103-1156 | over any interleaving exchanges never outnumber challenges |
| TotpChallenges.ChallengesAreConsumedOnce | api/auth.py:1131-1156 | each challenge is exchanged once at most, before its deadline, under its version, after at most five wrong codes |
| TotpChallenges.ExchangesFollowLogins | api/auth.py:1103-1156 | every exchange answers a right code under the version of its login, less than 300 seconds after it |
| TotpChallenges.AnswersTell | api/auth.py:1131-1156 | what each answer means, and that only a wrong code that is not the fifth leaves the challenge |
| TotpChallenges.AcceptedIff | api/auth.py:1132-1156 | accepted exactly for a live challenge of the current version and a right code; other live challenges stay |
| TotpChallenges.ChallengeTable.IssueChallenge | api/auth.py:1105-1112 | issuing drops expired challenges and adds one of five minutes under the current version |
| TotpChallenges.ChallengeTable.Clean | api/auth.py:944-948 | the loop drops exactly the challenges whose time is up |
| TotpChallenges.ChallengeTable.VerifyCode | api/auth.py:1132-1156 | one check changes the table and answers as the rule says |
| ClientAddress.LastUntrustedSpec | api/auth.py:242-246 | the right-most untrusted hop is found exactly when there is one |
| ClientAddress.ForgedPrefix | api/auth.py:231-246 | a prefix leaves the selection alone when the list holds an untrusted hop, and decides it otherwise |
| ClientAddress.UntrustedPeerDecides | api/auth.py:213-226 | no header of a peer that is not a trusted proxy is believed: the address is the peer's own, or its label |
| ClientAddress.ConnectingAddressDecides | api/auth.py:226-229 | a trusted proxy's connecting address comes first, whatever the other headers hold |
| ClientAddress.HeadersMatterIff | api/auth.py:213-253 | headers can change the address exactly when the peer is a trusted proxy |
| ClientAddress.ForwardedAddressIs | api/auth.py:230-253 | behind one: the right-most untrusted hop, the left-most when all are trusted, without any the stated address or the peer |
| ClientAddress.AddressIgnoresPrefixIff | api/auth.py:215-253 | the address is independent of forged prefixes exactly when the list holds an untrusted hop; without a readable list it is the stated address or the peer |
| ClientAddress.SelectHop | api/auth.py:241-246 | the walk from the right finds what the definition says |
| CookieHeader.KeptFirst | api/chatgpt.py:1356-1366 | every kept cookie is the first of its trimmed name, with that value |
| CookieHeader.KeptInOrder | api/chatgpt.py:1356-1366 | kept cookies come in the order in which their names came first |
| CookieHeader.KeptComplete | api/chatgpt.py:1356-1366 | every non-empty trimmed name is kept |
| CookieHeader.PrintParses | api/chatgpt.py:1334-1366 | clean kept cookies that were printed parse back with trimmed values |
| CookieHeader.RoundTripIff | api/chatgpt.py:1334-1366 | the round trip gives the trimmed first occurrences exactly when names have no `=` or `;` and values no `;` |
| CookieHeader.CookiesToHeader | api/chatgpt.py:1356-1366 | the printing loop gives the header of the kept cookies |
| CookieHeader.HeaderToCookies | api/chatgpt.py:1334-1353 | the parsing loop gives the cookies of the parts |
| IsoInstant.ParseUndoesIso | api/external_access_tokens.py:47-63 | reading undoes printing, also from the `Z` spelling, without offset and after blanks |
| IsoInstant.TextOrderIsTimeOrder | api/external_access_tokens.py:47-48 | for all instants text order is time order, though a zero fraction is dropped (section 5.1 of RFC 3339) |
| IsoInstant.SweepAgreesWithReader | api/external_access_tokens.py:365-394 | the sweep's text test selects a lease exactly when the reader's time test no longer honours it |
| IsoInstant.CalendarIs | api/external_access_tokens.py:51-63 | the instants that are read are those of the Gregorian calendar |
| ClaimLeases.StepKeepsInv | api/external_access_tokens.py:334-382 | no step but an insertion could break the unique index over active claims |
| ClaimLeases.AtMostOneActiveClaim | core/db.py:1743-1749 | whatever the interleaving, no account has two active claims |
| ClaimLeases.LeaseEndsIff | api/external_access_tokens.py:365-382 | a lease ends exactly by a sweep at or after its end, its release, or a report on it |
| ClaimLeases.LeaseHolds | api/external_access_tokens.py:596-757 | while nothing ends a lease its row is unchanged and the account gets no further claim |
| ClaimLeases.SpentStaysSpent | api/external_access_tokens.py:673-757 | a claim that left the active states never becomes active again |
| ClaimLeases.LastWordStands | api/external_access_tokens.py:673-757 | over every run a claim reported paid is paid, one reported failed failed, a released one released, until its consumer speaks again |
| ClaimLeases.PrecheckDecides | api/external_access_tokens.py:598-646 | a failed precheck settles a claim for good as rejected or repeated; a passed one claims it until the given time |
| ClaimLeases.OrphanBlocksForever | api/external_access_tokens.py:334-382 | a row left in precheck stays and its account is never leased again |
| ClaimLeases.OrphanedIffInterrupted | api/external_access_tokens.py:334-646 | over whole runs a row is left in precheck exactly when its precheck was interrupted at some point |
| ClaimLeases.PaymentOverwrittenIff | api/external_access_tokens.py:673-692 | a paid claim becomes released exactly by a release that read it before the report |
| ClaimLeases.OrphansExist | api/external_access_tokens.py:587-598 | a run that leaves a row in precheck |
| ClaimLeases.LostPaymentsExist | api/external_access_tokens.py:673-740 | a run in which a reported payment ends as released |
| ClaimLeases.ClaimTable.Reserve | api/external_access_tokens.py:334-362 | a row is inserted exactly when the account has no active claim |
| ClaimLeases.ClaimTable.FinishPrecheck | api/external_access_tokens.py:598-646 | each outcome settles the held row as the step says |
| ClaimLeases.ClaimTable.ExpireStaleClaims | api/external_access_tokens.py:365-382 | all due claimed rows and no others change, and their number is returned |
| ClaimLeases.ClaimTable.Release | api/external_access_tokens.py:673-692 | an unknown claim is refused, a paid one left alone, any other released |
| ClaimLeases.ClaimTable.WriteResult | api/external_access_tokens.py:695-739 | status words map to paid or failed; unknown claims and words change nothing |
| ClaimScan.VisitIsLocal | api/external_access_tokens.py:577-646 | handling an account touches no other account and adds at most its own claim |
| ClaimScan.ScanTakesFirstOffers | api/external_access_tokens.py:564-647 | the claims of one pass are the first `limit` offers without a repeated fingerprint |
| ClaimScan.ClaimsAreSound | api/external_access_tokens.py:564-655 | ids ascend, fingerprints differ, at most `limit`, each was on offer, and below the limit every token on offer was sent |
| ClaimOutcome.SendableIff | api/external_access_tokens.py:385-416 | which accounts may be sent, said by claim words, lease, cooldown, status and credential, is what the rule says |
| ClaimOutcome.ClaimsInWords | api/external_access_tokens.py:385-655 | no token of a paid, processed, leased, cooling, finished or empty account is handed out; each handed out is claimed until the end of the lease; below the limit all others are sent |
| ClaimOutcome.RequestLeaves | api/external_access_tokens.py:564-655 | up to the last account visited each that was ready is left rejected, repeated or claimed; every other is untouched |
| ClaimScan.PageSpec | api/external_access_tokens.py:567-574 | a page is ascending, within the filter, at most fifty long and passes over nothing |
| ClaimScan.ClaimDesk.ClaimOne | api/external_access_tokens.py:578-647 | reserving, prechecking and settling one account does what the visit says |
| ClaimScan.ClaimDesk.ClaimAccessTokens | api/external_access_tokens.py:564-647 | the paged loop ends with the table and claims of the one-pass scan, and terminates |
| ConfigStages.UpdateExact | api/config.py:1437-1439 | the staged partial checks accept an update exactly when its fields are valid and the whole result passes every check; what is saved is its normal form |
| ConfigStages.RefusalExact | api/config.py:347-712 | an update of valid fields is refused for the first fault of the configuration it would give |
| ConfigStages.BadFieldRefused | api/config.py:347-712 | an update with an invalid field is refused for that, unless a check of an earlier stage objects first |
| ConfigStages.UpdateKeepsConsistent | api/config.py:347-712 | an accepted update keeps the configuration consistent |
| ConfigStages.UpdateIdempotent | api/config.py:347-712 | an accepted update, sent again in normal form, changes nothing |
| ConfigStages.NormalizePart | api/config.py:454-537 | the loop over a key table accepts exactly valid fields and replaces each by its normal form |
| ConfigStages.NormalizeRegisterControl | api/config.py:412-562 | the registration stage as a loop over its tables and its checks |
| ConfigStages.NormalizeRuntimeCapacity | api/config.py:587-712 | the capacity stage as loops with the reserve and solver checks in between |
| ConfigStages.NormalizeLocalStatusProbe | api/config.py:347-409 | the probe stage with its delay and proxy checks |
| ConfigUpdate.FieldSteady | api/config.py:446-537 | the normal form of every field is its own normal form |
| ConfigNumbers.FieldTakenIff | api/config.py:412-712 | each field is taken exactly when it holds a number in its range or one of its words |
| ConfigNumbers.SettingsStayConsistent | api/config.py:347-712 | from the defaults through any updates, in numbers: fields in range and normal form, defaults within maxima, reserves within the cap, warm within maximum, both delay pairs in order |
| ConfigNumbers.RegisterDelaysStayOrdered | api/config.py:548-561 | the registration delays read off the stored texts are in order, with 15 and 30 for absent ones; a maximum of zero is no limit |
| ConfigNumbers.ExitStaysPossible | api/config.py:398-409 | the separate exit is never stored with a mode without a proxy, nor with a named proxy that may not be switched |
| ConfigNumbers.PolicyAndSwitchAgree | api/config.py:474-503 | policy and old switch are stored together and say the same |
| ConfigNumbers.RefusedForObjection | api/config.py:347-712 | after any updates an update is refused for the first objection to the numbers and words it proposes, and accepted without one |
| ConfigNumbers.ReversedDelaysRefused | api/config.py:556-561 | a registration maximum below the minimum is refused as such |
| ConfigNumbers.AcceptedIsStored | api/config.py:446-537 | accepted fields are stored with the number or word that was sent; others stay |
| ConfigNumbers.AcceptedPolicy | api/config.py:474-503 | the policy sent decides the switch, a switch sent alone the policy |
| ConfigUpdate.AcceptedIff | api/config.py:1410-1439 | after any updates the next is accepted exactly when its fields are valid and the result passes all checks; saving it again changes nothing |
| ConfigUpdate.ConfigStore.Put | api/config.py:1410-1439 | an update is saved in normal form or refused without a change |
| MigrationPlanner.CountsAddUp | api/accounts.py:1178-1189 | stored accounts are the assigned, conflicting, missing and outside ones, each once |
| MigrationPlanner.PlannerRefinesSpec | api/accounts.py:1145-1176 | an account is assigned to a group exactly when the group may have it and it is its owner or the first such group |
| MigrationPlanner.AssignmentsDisjoint | api/accounts.py:1145-1176 | no account is assigned twice |
| MigrationPlanner.CommitAt | services/account_fixed_groups.py:196-243 | after the commit each account has its planned owner, its old one, or none if its group was refilled without it |
| MigrationPlanner.CommitMovesNobody | services/account_fixed_groups.py:169-194 | no replacement of members meets an account of another group, so none is refused |
| MigrationPlanner.RerunSameIff | api/accounts.py:1127-1193 | a second run plans the same exactly when no dropped account is wanted by a migrated group |
| MigrationPlanner.MigrateOkIff | api/accounts.py:1225-1280 | candidates with different names are migrated exactly when existing groups have the wanted parent, no other group has a name, and no account lies outside |
| MigrationPlanner.RestartIsSafe | api/accounts.py:1252-1287 | with groups that did not exist before, a second run succeeds, plans the same and changes nothing |
| MigrationPlanner.RestartCanDiffer | api/accounts.py:1252-1287 | a group that existed before can make the second run differ |
| MigrationPlanner.PlanFixedPresets | api/accounts.py:1145-1199 | the priority loop gives every group its plan line with counts that add up |
| MigrationPlanner.GroupStore.CommitMigration | api/accounts.py:1251-1280 | groups are created and filled, or nothing is kept when a name is refused |
| PresetIntegrity.CreatePresetKeeps | api/accounts.py:1368-1392 | creating keeps the stores sound and adds exactly the one preset while there is room |
| PresetIntegrity.StepKeepsSound | api/accounts.py:1225-1593 | create, update, delete and migrate, also interrupted, keep the stores sound |
| PresetIntegrity.IntegrityHolds | api/accounts.py:881-1593 | from any sound stores, also with old fixed presets, after any requests parents of groups are visible and dynamic, names and ids unique, deleted built-ins without override, the cap kept |
| PresetIntegrity.IntegrityFromEmpty | api/accounts.py:881-1593 | the same from nothing saved |
| PresetIntegrity.MigratesIff | api/accounts.py:1225-1287 | a migration is carried out exactly when it names the old presets properly, group parents and names fit, and no account lies outside its parent |
| PresetIntegrity.MigrationCompletes | api/accounts.py:1225-1287 | afterwards no old preset is visible, every dynamic one is, each named one is a group under its parent, and asking again is refused |
| PresetIntegrity.OldPresetMigrates | api/accounts.py:1225-1287 | with the shipped presets an old fixed preset becomes a group with its account |
| PresetIntegrity.SavedPresetsStay | api/accounts.py:820-868 | only a request that names a saved preset can change or remove it |
| PresetIntegrity.CreatedIsSavedIff | api/accounts.py:1386-1388 | an accepted create saves its preset exactly below the cap |
| PresetEffects.CreateDecides | api/accounts.py:1368-1392 | when a preset is refused, with which reason, and what is visible after it is accepted |
| PresetEffects.CreateGroupDecides | api/accounts.py:1303-1366 | the same for a group, and that it is stored with its parent, its name and exactly its accounts |
| PresetEffects.UpdateDecides | api/accounts.py:1467-1487 | when a change of a preset is refused, with which reason |
| PresetEffects.UpdatedPresetIsShown | api/accounts.py:1489-1540 | a changed preset is visible with its new name and its mode, every other visible one stays, the groups are untouched |
| PresetEffects.UpdateGroupDecides | api/accounts.py:1406-1465 | when a change of a group is refused, and that it is stored with its name and exactly the given accounts under its old parent |
| PresetEffects.DeleteDecides | api/accounts.py:1549-1592 | a group can be deleted, a preset unless groups hang under it or it is not visible |
| PresetEffects.DeletedPresetIsGone | api/accounts.py:1572-1592 | a deleted preset is gone, every other stays, the groups are untouched, and a second deletion finds nothing |
| PresetEffects.DeletedGroupIsGone | api/accounts.py:1551-1558 | a deleted group is gone, exactly its accounts lose their owner, nothing else changes |
| PresetEffects.MigratedAccounts | api/accounts.py:1145-1280 | after a migration an account without a group is in the first listed preset that may have it or in none, and members of other groups stay |
| PresetIntegrity.ShippedFine | api/accounts.py:570-626 | the shipped presets have distinct ids and names |
| PresetIntegrity.PresetStore.Create | api/accounts.py:1303-1388 | a preset is appended and saved, or refused with the reason |
| PresetIntegrity.PresetStore.Change | api/accounts.py:1467-1540 | a built-in override or a custom preset is replaced in place, or refused with the reason |
| PresetIntegrity.PresetStore.CreateFixedGroup | api/accounts.py:1303-1366 | a group is stored with its accounts, put in one by one, or refused with the reason |
| PresetIntegrity.PresetStore.ChangeFixedGroup | api/accounts.py:1406-1465 | a group gets its new name and exactly the given accounts, or is refused with the reason |
| PresetIntegrity.PresetStore.Remove | api/accounts.py:1554-1593 | a group, built-in or custom preset goes, unless groups hang under it |
| FilterValues.ValueListSpec | api/accounts.py:179-200 | a value list is trimmed, distinct and within 32, and such a list reads back unchanged |
| FilterValues.ColumnNormal | api/accounts.py:330-384 | column values are canonical, distinct and never the full pair |
| FilterValues.ColumnFixed | api/accounts.py:330-384 | canonical column values read back unchanged |
| EmailSearch.SearchIsNormal | api/accounts.py:403-413 | the search text is one trimmed line or at most 1000 distinct lower-case addresses |
| EmailSearch.SearchIsFixed | api/accounts.py:403-413 | such a text reads back unchanged, also the list of one address |
| FilterSettings.FiltersAreNormal | api/accounts.py:398-469 | whatever was stored, the filters read from it are normal |
| FilterSettings.FiltersReadBack | api/accounts.py:398-469 | normal filters that were written read back unchanged but for underscores a cut left in method names |
| FilterSettings.FiltersSettle | api/accounts.py:398-469 | one more reading settles filters, and changes nothing exactly when they were settled |
| PaymentSelection.MethodTypeTwice | services/chatgpt_core/payment_method_catalog.py:47-55 | a method name reads as itself exactly when its cut is not behind an underscore; a third reading never changes it |
| PaymentSelection.SelectionIsNormal | services/account_filters.py:472-547 | from any stored value: valid countries, each once, with ordered distinct method names |
| PaymentSelection.SettledIff | services/account_filters.py:479-547 | what is read is settled exactly when no method text that counts is cut behind an underscore |
| PaymentSelection.ReadTwiceIff | services/account_filters.py:479-547 | reading is idempotent on a stored value exactly under that condition; a third reading never changes the second |
| PaymentSelection.LongMethodNotReadBack | services/account_filters.py:479-547 | a selection whose second reading differs from the first |
| PaymentSelection.CollectMethods | services/account_filters.py:531-538 | the inner loop collects the named methods into an ordered list without repetition |
| PaymentSelection.NormalizeSelection | services/account_filters.py:495-547 | the loop over the items gives the selection, with methods of a repeated country joined |
| PresetAccounts.IdsSpec | api/accounts.py:210-230 | account ids are positive, distinct and within 5000, and read back unchanged |
| PresetAccounts.RefsReadBack | api/accounts.py:250-272 | account references in account order read back unchanged |
| PresetNormalizer.CustomNormal | api/accounts.py:641-676 | every custom preset that is kept is normal |
| PresetNormalizer.CustomReadsBack | api/accounts.py:641-676 | a normal custom preset reads back as its settled form, whatever the time and made-up id |
| PresetNormalizer.CustomSettledIff | api/accounts.py:641-676 | a stored custom preset reads as a settled one exactly when it is fixed or its method cuts are clean |
| PresetNormalizer.OverrideNormal | api/accounts.py:679-716 | every override that is kept is normal |
| PresetNormalizer.OverrideReadsBack | api/accounts.py:679-716 | a normal override reads back as its settled form |
| PresetNormalizer.OverrideSettledIff | api/accounts.py:679-716 | a stored change reads as a settled one exactly when it is fixed or the cuts of its filters, or the default's, are clean |
| PresetState.StateIsNormal | api/accounts.py:728-805 | from every version and shape the state read is normal |
| PresetReading.ValueListNext | api/accounts.py:179-200 | a value list grows item by item: trimmed, new, not empty, up to 32 |
| PresetReading.AccountIdsNext | api/accounts.py:210-230 | account ids likewise: positive, new, no switches, up to 5000 |
| PresetReading.RefsNext | api/accounts.py:250-272 | an account has the first usable reference stored for it |
| PresetReading.ColumnHolds | api/accounts.py:330-384 | a column holds what its listed words say, unless that is the two opposites |
| PresetReading.FiltersLookedFor | api/accounts.py:398-447 | under which old and new names, in which order, each filter is looked for |
| PresetReading.OrdersLookedFor | api/accounts.py:449-467 | the same for the two orders, and what they say |
| PresetReading.SearchHolds | api/accounts.py:403-413 | one line is the trimmed text; several list their addresses, each once, up to 1000 |
| PresetReading.MethodOfWords | services/chatgpt_core/payment_method_catalog.py:47-55 | a word names its method in lower case; two words are joined by an underscore whatever stood between them |
| PresetReading.SelectionKeepsPairs | services/account_filters.py:479-547 | a selection has a method for a country exactly when some stored item says both |
| PresetReading.CustomKeptIff | api/accounts.py:641-676 | a stored item is a preset exactly when it is an object with a name and, in fixed mode, with an account |
| PresetReading.CustomSays | api/accounts.py:641-676 | what each of its fields says |
| PresetReading.ChangeInherits | api/accounts.py:679-716 | a change to a built-in preset takes what it does not say from that preset |
| PresetReading.ChangeSays | api/accounts.py:679-716 | and what it says replaces it |
| PresetReading.StateCustomsNext | api/accounts.py:753-771 | custom presets are read item by item: the first of each id, up to 80, those from before version 3 in the newer order |
| PresetReading.StateChangesNext | api/accounts.py:776-805 | changes are read entry by entry: a later usable one replaces an earlier one, deleted built-ins have none |
| PresetReading.ShapesReadAlike | api/accounts.py:728-805 | a bare list, the older name of the list and listed changes read like the newest shape |
| PresetState.NormalizeIdempotentIff | api/accounts.py:728-805 | normalising a written result gives the same state exactly when no cut of a method name in what was kept falls behind an underscore |
| PresetState.NormalizeTwiceIff | api/accounts.py:728-805 | a third reading never changes what the second gave |
| PresetState.SaveSettles | api/accounts.py:820-851 | a save returns the settled form of what it was given, equal to it exactly when the stored cuts are clean |
| PresetState.LongMethodIsChangedBySave | api/accounts.py:820-851 | a stored value whose save differs from its reading |
| PresetState.LoadAfterSave | api/accounts.py:808-868 | loading what a save wrote gives exactly what the save returned |
| PresetState.ReadValueList | api/accounts.py:179-200 | the collecting loop with its cap gives the value list |
| PresetState.ReadAccountIds | api/accounts.py:210-230 | the collecting loop with its cap gives the account ids |
| PresetState.ReadCustoms | api/accounts.py:753-771 | the loop keeps the first usable item of each id up to the cap |
| PresetState.ReadChanges | api/accounts.py:791-805 | the loop keeps the last usable change of each built-in that is not deleted |
| PresetState.PresetConfig.Load | api/accounts.py:808-817 | loading gives the normal state of what is stored |
| PresetState.PresetConfig.Save | api/accounts.py:820-868 | every later load returns what this save returned |
| FilterWords.ShippedWordsSteady | api/accounts.py:136-346 | the shipped alias tables map to values that stand for themselves |
| FilterWords.SubmitMeans | api/accounts.py:330-344 | which words the shipped table takes for each submit state |
| FilterWords.SubmitAliases | api/accounts.py:330-344 | and that each of them is taken |
| FilterWords.UploadMeans | api/accounts.py:136-148 | the same for upload states, yes and no, and the words for a fixed preset |

## Left out

- GopayBatchStop.GracefulStop: assumes that the payment calls report a phase from the two tables and a session id, and speaks of a stop that is stored; GopayBatchLateStop says when it is, GopayBatchLimits what an unknown phase does.
- GopayBatchTermination.WorkerLeaves: counts decisions, not seconds; sleeping times are not modelled.
- ClaimLeases.ClaimTable.WriteResult: the answer to a repeated identical report, which changes nothing, is not modelled.
- ClaimLeases.AtMostOneActiveClaim: in runs, releases and reports name ids that were handed out; a caller that guesses the id of a row still in precheck appears only in the contracts of Release and WriteResult.
- ClaimLeases.LeaseHolds: the seven-day and sixty-second clamps of the lease length are not modelled; the lease end is any instant.
- ClaimScan.ClaimDesk.ClaimAccessTokens: the table is changed by no one else during the request and the live precheck is a fixed answer per account.
- IsoInstant.ParseUndoesIso: only the printed shapes are read; other texts that the host language also accepts, such as other offsets, are answered with OtherForm.
- ConfigNumbers.SettingsStayConsistent: update values are text; booleans and numbers sent as such, and the other normalisers of the same request (mailbox, proxy template, payment link), are not modelled. The proxy mode is checked as it arrives at the probe stage.
- PresetIntegrity.PresetStore.ChangeFixedGroup: a parent id sent along, which must be the present one, is not modelled.
- PresetIntegrity.IntegrityHolds: presets are ids, names and modes; whether accounts satisfy a parent's conditions only decides whether a request is refused. Requests run one after the other.
- PresetNormalizer.CustomReadsBack: the account count and the summary line, which are computed from the other parts, are not stored in the model.
- AdminSessions.FreshTokenVerifies: tokens with an explicit lifetime and the instance id are not modelled.
- AdminSessions.CredentialChangeEndsOldTokens: two credential changes racing each other are not modelled; the version bump is one step.
- Throttle.WindowBound: attempts of one bucket are serialised as gate, then failure; resets come in through EveryBucketBounded.
- The stop endpoint, immediate stop with its cancel calls, task pruning and restarts of the process that leave an item starting.
- HTTP, browsers, proxies, payment calls, mail and language-model calls; error texts, logs and audit events.
- External subscriptions, which use the same lease skeleton, and the retired integrations router.
- Account serialisers, summaries and exports, which copy fields.
