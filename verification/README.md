# RollPig cloud: roasting rounds, protection, reports, charges, refills and growth

A Dafny model of the state machines behind the RollPig cloud service, with proofs of what they promise.

Players of a chat group roast a friend who has not drawn today's pig yet. A *round* per date, group and target
gathers members while it is pending. It ignites when the target has arrived and there is enough fire, is then leased
to a bot, gets one fixed outcome, is sent once and completed. A target may be *protected*: the round then needs more
fire, and its threshold follows the protection while it waits. Around this core are the daily report deliveries, the
charges that pay for ordinary roasts, the voted refills of those charges, and the growth ledger of the pigs.

`dafny verify dfyconfig.toml` checks everything.

## How the model is built

* `Base.dfy`: identifiers and options. Identifiers are natural numbers; a token or an id that is drawn is one that was
  not used before.
* `Usage.dfy`, `Growth.dfy`, `Reports.dfy`, `Protections.dfy`, `Refills.dfy`: one component each, as functions on the
  rows, with their laws. The tables of the first three are classes in the same file.
* `Rounds.dfy`, `RoundLaws.dfy`: what each request does to the one round it has locked, what a round always satisfies
  and how it may change.
* `Database.dfy`, `DatabaseLaws.dfy`, `RequestLaws.dfy`: all tables together. Every endpoint is one transaction on them
  and keeps the invariant of the tables.
* `RoastSystem.dfy`: the service as a state machine. A step is one committed transaction; what a request still owes
  after its commit (re-reading the draw, reconciling) is a job that runs some time later, so any steps of any requests
  may come in between.
* `RoastRuns.dfy`, `ForceRuns.dfy`, `ProtectionRuns.dfy`, `StreakRuns.dfy`, `UsageRuns.dfy`: what holds in every state of
  every run and across its states.  `Counterexamples.dfy`: runs that end where the code does not do what it is meant to.
* `RoundEffects.dfy`, `TableEffects.dfy`, `ProtectionLevels.dfy`, `ReportEffects.dfy`, `RefillEffects.dfy`,
  `LedgerEffects.dfy`, `ChargeEffects.dfy`: what each operation does and answers, said in terms of plain rows, lists and
  counts instead of the functions that compute it.
* `ReservationRows.dfy`, `ProtectionRows.dfy`, `Store.dfy`, `RefillStore.dfy`: the handlers as they run. Rows are loaded
  into objects, edited field by field in loops and branches, and written back. Every handler is proved to do to the
  tables exactly what its transaction says, so the theorems about runs are theorems about the handlers.

A row that is read with `FOR UPDATE` is current. The target's daily roll is read without a lock: the flag `seen` of a
request says whether its snapshot has the row, and both cases are allowed at any time. A draw activates any subset of
the waiting rounds, because rounds that commit meanwhile are not locked by it. The rosters in a claim's reply are read
without locks from a snapshot that opens after the leased rows are locked (`RoastRuns.MaySee`). Unique keys abort the
whole transaction. Clocks, dates, tokens and fresh ids are parameters. A claim may select any claimable rows, so limits,
exclusion lists and the order of ids do not matter. Protection rows of the pseudo group `__all__` are there before the
first round of a run; `RequestLaws.LateGlobalAgreesIff` says exactly when one that comes later does harm.

## Where the code does not do what it is meant to

* The retry after a unique-key conflict is meant to join the winner. If an unprotected round has ignited and its target
  is granted protection afterwards, the round stays invisible until it is completed, and the retry, like any capable
  ordinary request that can pay for a round, conflicts again (`RequestLaws.ConflictIff`,
  `Counterexamples.HiddenUntilCompleted`, reached in `Counterexamples.RetryConflictsAgain`).
* `next_claim_at` may point at a foreign lease that is on its fourth attempt: it cannot be claimed then, only expire
  (`Reports.NextClaimIsTight`, `Reports.AnnouncementIsKeptIff`, reached in `Reports.NextClaimCanBeHollow`).
* The roster that goes out with a waiting notice may lack members who joined, and boosts that were made, between the
  snapshot of a claim that also leases a round and its locks on the notices (`RoastRuns.NoticeReplyIsFreshIff`, reached
  in `Counterexamples.NoticeNamesTooFew`).
* One force use a date depends on dates that never go back (`Usage.ForceOncePerDateIff`, reached in
  `ForceRuns.ForceTwiceWhenDatesGoBack`).
* A takeover of an unprotected round with a blank force mode loses the members' claims to be fed
  (`RoundLaws.TakeoverPreservesFeedingIff`, reached in `Counterexamples.BlankTakeoverFeedsNobody`).
* The start-up migration fills legacy rows up to two charges at the default recovery period, which is visible to clients
  with other settings. It does so at every start, also to rows that only force uses have written and that would read as
  full (`Usage.MigrationKeepsChargeIff`, reached in `Usage.MigrationCostsACharge` and
  `Usage.MigrationCostsAForceOnlyRow`).

## Model

| member | source | states |
|---|---|---|
| RoastRuns.RaceClosure | rollpig_cloud/routers/roast_reservations.py:174-200 | When no request owes a reconciliation for a target, every waiting round of that target, if they have really drawn, knows the pig and is short of fire, for all interleavings of stale reads, commits and draws. |
| RoastRuns.ThresholdAgreement | rollpig_cloud/services/protections.py:21-79 | In every reachable state a waiting round that was not taken over asks for one more fire than its target's level, or for none without a row, although fixing an outcome raises the count without a sync. |
| RoastRuns.ExactIgnition | rollpig_cloud/services/reservations.py:328-344 | A round still waits after its target arrived exactly because it is not taken over, asks for 2 to 6 fire and has less; one that no longer waits had the real draw and enough fire or an override; any notice belongs to such a waiting round. |
| RoundEffects.StrangerJoins | rollpig_cloud/services/reservations.py:219-257 | A stranger with room joins last, with two fire for a force use in a protected round and with one otherwise, whether or not the target is there; the round is ready exactly if the target is known to be there and the fire is then enough. |
| RoundEffects.MemberBoosts | rollpig_cloud/services/reservations.py:210-257 | A member who pays a force use in a protected round burns two instead of one at the same place, fire grows by one, and the answer is that they upgraded. |
| RoundEffects.JoinVerdict | rollpig_cloud/services/reservations.py:209-225 | When an ordinary request to a waiting round is answered joined, upgraded, already joined, full or force denied, exactly; a refusal changes nothing and a force use is spent exactly for a boost. |
| TableEffects.FirstOutcomeEffect | rollpig_cloud/routers/roast_reservations.py:375-417 | A first outcome feeds, if it is a success and the client settles, exactly the members whom the round feeds, once each and listed in joining order, leaving every other ledger alone; any other outcome feeds nobody and stores an empty list. |
| RoastRuns.NoticeFreshness | rollpig_cloud/routers/roast_reservations.py:313-341 | A notice token that is allowed to start sending was minted while the row had exactly its present roster, contributions, threshold, mode and pig, and the round still waits. |
| RoastRuns.NoticeReplyIsFreshIff | rollpig_cloud/routers/roast_reservations.py:274-311 | What the claim's reply showed: round, threshold, mode and pig are still the present ones when sending starts, and the roster, a read without a lock, is an earlier form of the present one that shows no more fire; it is the present one exactly if nobody joined or boosted between the claim's snapshot and its locks, and always if the claim leased nothing. |
| RoastRuns.SentAtMostOnce | rollpig_cloud/routers/roast_reservations.py:458-524 | At most one step of a run puts a round into sending; afterwards its token never changes, it is never claimable or releasable and answers no other token. |
| RoastRuns.LostLeaseStaysLost | rollpig_cloud/routers/roast_reservations.py:215-273 | A holder whose lease was taken over or given back finds every later request for that round refused for ever. |
| RoastRuns.WriteOnce | rollpig_cloud/routers/roast_reservations.py:366-425 | Roster, threshold and mode are fixed once a round leaves pending, outcome, feed results and bot once it has an outcome, the token once it is being sent. |
| RoastRuns.OneOpenRoundPerSlot | rollpig_cloud/models.py:214-219 | Two rounds of one date, group and target are never open together. |
| RoastRuns.TakeoverFeedsTheSame | rollpig_cloud/services/reservations.py:186-208 | Whatever happens after a super takeover, a success feeds those whom a success at that moment would have fed without the operator, in joining order; it fails exactly for an unprotected blank-mode round with somebody else aboard. |
| RoastRuns.MakeupNeverActivates | rollpig_cloud/routers/daily_rolls.py:187-234 | A make-up draw changes no round, and no round of that user and date ever ignites afterwards. |
| RoastRuns.LedgersAlwaysTrue | rollpig_cloud/services/progress.py:83-275 | In every state every user's growth ledger is true, and later states keep its rows. |
| RoastRuns.OnlyHoldersLaunch | rollpig_cloud/routers/roast_reservations.py:264-273 | Only a claim gives a round a token, and only the token it then has, in a save, a sending request or a claim for an old client, puts it into sending. |
| RoastRuns.RunIsOk | rollpig_cloud/routers/roast_reservations.py:174-200 | Every state of every run, with the steps of any requests in any order, satisfies the system invariant: slot index, round, protection and ledger correctness, real pending draws, no forgotten race, live notices truthful. |
| RoastRuns.RunFollows | rollpig_cloud/services/reservations.py:110-257 | Between any two states of a run no round, draw or feed is lost and each round changes only in the allowed direction. |
| ForceRuns.OneForceUse | rollpig_cloud/services/reservations.py:210-237 | In every state of a run in date order a user has at most one round of a date in which they own a normal-force round or hold contribution 2, across all groups. |
| ForceRuns.NeverBackIsForwardRun | rollpig_cloud/services/usage.py:115-125 | Requests whose dates never go back per user form a run in date order. |
| ProtectionRuns.GrantHolds | rollpig_cloud/routers/protections.py:166-200 | After a grant the level is the maximum of the earlier one and the grant; from then on the row survives, its count grows by exactly the protected rounds first fixed as a success, and its level is at least the granted one plus one for each of them, up to five. |
| ProtectionRuns.LevelClimbs | rollpig_cloud/services/protections.py:21-30 | While no grant and no list touches a row, its level in any later state is the earlier one plus one for every protected round of its slot first fixed as a success, up to five, and every round that waits in the slot asks for one more fire than that. |
| ProtectionRuns.CountGrowsByBreaches | rollpig_cloud/routers/roast_reservations.py:374-382 | Wherever a row comes from, daily list, grant or inheritance, between two states throughout which it exists its count grows by exactly the protected rounds of its slot whose first outcome was fixed there as a success. |
| ProtectionRuns.CountIsBreachesSinceBirth | rollpig_cloud/services/protections.py:36-41 | In every state a row's count is the number of protected rounds of its slot first fixed as a success since the row was created, on top of what it held if it was there from the start. |
| ProtectionRuns.ReplaceTwice | rollpig_cloud/routers/protections.py:57-145 | Replacing the same daily list twice equals replacing it once, waiting rounds included. |
| ProtectionRuns.RowBetween | rollpig_cloud/routers/protections.py:57-199 | Between two states of a run a row changes exactly by the row operations in between, all of them legal. |
| ProtectionRuns.BreaksAreRounds | rollpig_cloud/routers/roast_reservations.py:374-382 | The break-throughs between two states are the protected rounds first fixed as a success there, each counted once. |
| ProtectionRuns.RowsAlwaysOk | rollpig_cloud/services/protections.py:21-30 | In every state every row has levels 1 to 5 and no baseline ahead of its count. |
| StreakRuns.StreaksOverRuns | rollpig_cloud/routers/protections.py:57-136 | If the lists of a group come in date order and a user starts without rows there, then in every state consecutive_days is the length of the run of awarded dates and the daily level is min(5, initial + run - 1), initial being that of the awarding list, whatever grants, inheritances, break-throughs, removals and re-additions happen. |
| UsageRuns.RoastsAreBounded | rollpig_cloud/services/usage.py:53-112 | Over any stretch of a run with fixed settings, T seconds and k refills that reached the user, at most max * (1 + k) + T / recover ordinary roasts are granted, whatever else happens on the service. |
| Usage.RateBound | rollpig_cloud/services/usage.py:53-112 | A window of T seconds with k refills lets at most max * (1 + k) + T / recover roasts through, for every sequence of calls, refills and force uses. |
| Usage.DenialIsExact | rollpig_cloud/services/usage.py:83-99 | After a refusal retries are refused before the announced second and allowed from it on, however often the user polls. |
| Usage.LazyRefinesEager | rollpig_cloud/services/usage.py:32-112 | The lazy row and a second-by-second bucket answer every schedule of seconds, roasts, refills and force uses alike. |
| Usage.MigrationIsInvisible | rollpig_cloud/migrations.py:71-103 | At default settings a request cannot tell when, or whether, its row was migrated. |
| Reports.HistoryIsAtomic | rollpig_cloud/routers/daily_reports.py:394-636 | In every history in which each claim or transition may have read any earlier state, an UPDATE that hits has exactly the effect of the atomic operation at that moment, answer included, and one that misses changes nothing. |
| Reports.DeliveryTerminates | rollpig_cloud/routers/daily_reports.py:32-39 | Each delivery makes at most 12 status changes and starts sending at most 4 times. |
| Reports.LeaseHolds | rollpig_cloud/routers/daily_reports.py:394-475 | A holder that acts within five minutes and before the deadline still owns the row and may start sending, whatever others tried. |
| Reports.SendingIsTheHolders | rollpig_cloud/routers/daily_reports.py:520-560 | Sending is started only by the lease holder before the deadline, and only the holder ends it. |
| ReportEffects.RetrySchedule | rollpig_cloud/routers/daily_reports.py:565-589 | A holder who gives a claimed report back, or reports that sending was refused, leaves it waiting for 30 seconds, 2 minutes or 5 minutes after attempt 1, 2 or 3, exactly if that lies before the deadline, and failed otherwise and after attempt 4; the lease is gone either way. |
| Reports.NextClaimIsSound | rollpig_cloud/routers/daily_reports.py:108-128 | Before next_claim_at the same requester is handed nothing that it was not handed already. |
| Reports.NextClaimIsTight | rollpig_cloud/routers/daily_reports.py:108-128 | Some row announces next_claim_at, and every row that does opens then: a waiting row at that moment, a foreign lease right after it, unless that is on its fourth attempt and can only expire. |
| Reports.AnnouncementIsKeptIff | rollpig_cloud/routers/daily_reports.py:108-128 | Right after next_claim_at, if the deadline allows, each row that announced it is handed out unless it is a lease on its fourth attempt, so none of them is exactly if they all are such leases. |
| Growth.LedgerAlwaysHolds | rollpig_cloud/services/progress.py:38-275 | From an empty record, after every history copies count the rolls of each pig, the bonus its feed rows, the streak the draws since the last new pig, and rows are never rewritten. |
| LedgerEffects.LevelIsCounted | rollpig_cloud/services/progress.py:38-41 | In a true ledger every pig stands at min(5, draws - 1 + feeds), counted from the rows. |
| Growth.FeedOrderIsIrrelevant | rollpig_cloud/routers/roast_reservations.py:396-415 | Settling in lock order gives the same final state and, looked up in joining order, the same results. |
| Refills.BoardAlwaysOk | rollpig_cloud/services/roast_refills.py:232-313 | In every reachable state keys belong to running votes, thresholds are as frozen, and successes are numbered 0, 1, 2, ... with a running vote carrying the next number. |
| Refills.OneVoteAtATime | rollpig_cloud/models.py:336-345 | At most one request of a group and date is being voted on. |
| Refills.SuccessesEscalate | rollpig_cloud/services/roast_refills.py:275-300 | Successes of a group and date carry different numbers below their count, and a later one with no fewer active users never needed fewer votes. |
| Refills.PaidIff | rollpig_cloud/services/roast_refills.py:395-448 | A vote is paid exactly if it is running, bound to the message, in time, and two different users voted who are active and not excluded, with enough of these, the managers among them counted twice if the client weighs them. |
| Refills.PaysExactly | rollpig_cloud/services/roast_refills.py:448-470 | A payment fills exactly the active users who were not excluded and takes the next number; otherwise no bucket is touched. |
| RefillEffects.CompleteEffect | rollpig_cloud/services/roast_refills.py:397-470 | Every answer of a completion with its exact condition and effect: an overdue vote is ended, a payable one is paid to the active users outside the excluded set at the clamped maximum, and nothing else happens. |
| RequestLaws.ConflictIff | rollpig_cloud/routers/roast_reservations.py:174-200 | An attempt hits the unique key exactly when an ignited unprotected round hides in the slot, the cost can be paid, and the target is protected by now and the client capable (or the target is not protected and the draw was read too old). |
| Counterexamples.HiddenUntilCompleted | rollpig_cloud/services/reservations.py:152-164 | After a grant, an unprotected round that had ignited stays unseen in its slot in every later state until it is completed, and a capable ordinary request conflicts exactly when it can pay. |
| Counterexamples.RetryConflictsAgain | rollpig_cloud/routers/roast_reservations.py:176-200 | A concrete run after which a capable request of a user who has spent nothing conflicts, whether it knows of the draw or not. |
| Counterexamples.NoticeNamesTooFew | rollpig_cloud/routers/roast_reservations.py:278-303 | A concrete run in which a claim leases one round and hands out the notice of another, and the token may start sending although the roster in the reply lacks a member who joined after the claim's snapshot. |
| RoundLaws.TakeoverPreservesFeedingIff | rollpig_cloud/services/reservations.py:186-208 | The condition under which a takeover preserves the fed users, for one round and all its later states. |
| Counterexamples.BlankTakeoverFeedsNobody | rollpig_cloud/services/reservations.py:192-196 | A concrete run in which a takeover takes the feeding claim from the only member of a blank-mode round. |
| Reports.NextClaimCanBeHollow | rollpig_cloud/routers/daily_reports.py:108-128 | A concrete series of claims after which next_claim_at names the lapse of a fourth lease and nothing is ever handed out again. |
| Usage.MigrationKeepsChargeIff | rollpig_cloud/migrations.py:71-103 | For any legacy row and any settings the migrated row holds the same charge exactly if, without a last roast, at most two charges can be stored; with one, if it is less than a default period old, or one charge is the maximum, or exactly one of the client's periods has passed, or two charges are the maximum and at least one period has passed. |
| Usage.MigrationCostsACharge | rollpig_cloud/migrations.py:71-103 | A concrete legacy row that allows three roasts to a client with maximum three, and two once it is migrated. |
| Usage.MigrationCostsAForceOnlyRow | rollpig_cloud/services/usage.py:115-125 | The row that a first force use leaves allows three roasts to a client whose maximum is three or more, and two once a start of the service has migrated it. |
| Usage.ForceOncePerDateIff | rollpig_cloud/services/usage.py:115-125 | A user is granted one force use a date exactly if that date's requests are contiguous, counting the force use the row already holds, as they are when dates never go back. |
| ForceRuns.ForceTwiceWhenDatesGoBack | rollpig_cloud/services/usage.py:122-125 | A concrete run with dates 1, 2, 1 in which one force use of date 1 is granted twice. |
| RequestLaws.LateGlobalAgreesIff | rollpig_cloud/services/reservations.py:131-143 | A global row that appears after the first round is inherited without a sync; thresholds agree exactly if nothing waits in the slot. |
| RoastRuns.LeaseReplyIsFinal | rollpig_cloud/routers/roast_reservations.py:254-278 | The roster shown for a leased round, read after its row was locked, is its roster in every later state. |
| RoastSystem.StepKeepsSys | rollpig_cloud/routers/roast_reservations.py:174-200 | Every enabled step of every endpoint keeps the system invariant and the past. |
| ForceRuns.StepKeepsForce | rollpig_cloud/services/usage.py:115-125 | Every step that is not dated before the user's last force use keeps each user's force marks of a date in one round, conversions by a protection sync included. |
| ProtectionRuns.RowStep | rollpig_cloud/routers/protections.py:67-136 | Every step treats every protection row as its row operation says: grant, enlist, delist, inherit, break through, or nothing. |
| RequestLaws.PrepareLaws | rollpig_cloud/services/reservations.py:110-325 | An attempt conflicts and is rolled back, or keeps the invariant, loses nothing, lets no notice survive a change to its round, opens at most the requested round and lets force marks appear only for a force use it spent. |
| TableEffects.PrepareTouches | rollpig_cloud/services/reservations.py:152-257 | A request that sees an open round acts on that round alone and spends a force use only if the round's answer says so; a bound request is refused exactly if it sees another round, one that does not wait, or an unprotected one of an arrived target. |
| TableEffects.PrepareOpens | rollpig_cloud/services/reservations.py:259-319 | A request that sees no round roasts at once, is refused for want of a force use or charge, conflicts, or opens a round and pays, each under its exact condition. |
| TableEffects.PrepareTurnsAway | rollpig_cloud/services/reservations.py:144-145 | A protected target turns away clients that cannot gather, unless they override, and nothing is paid or changed. |
| TableEffects.PrepareMisses | rollpig_cloud/services/reservations.py:165-172 | A request that is bound to a round and sees none is told that it is closed, and pays nothing. |
| TableEffects.PrepareCopies | rollpig_cloud/services/reservations.py:131-143 | Whatever the answer, the group's row is copied from the global one exactly for gathering clients who need it. |
| TableEffects.PrepareOwes | rollpig_cloud/routers/roast_reservations.py:180-192 | A fresh look at the target's draw is owed exactly after a commit that created, joined, upgraded or found the requester aboard. |
| TableEffects.JobEffects | rollpig_cloud/services/reservations.py:347-402 | The look goes by the draw as it is then, and only a real one is reconciled. |
| TableEffects.DrawsOwe | rollpig_cloud/routers/daily_rolls.py:69-183 | First and repeated real draws owe a reconciliation, make-up draws none. |
| TableEffects.DrawTxEffect | rollpig_cloud/routers/daily_rolls.py:88-183 | A draw writes the user's ledger and wakes the waiting rounds it had locked, each by the rule of arrival, and changes nothing else. |
| TableEffects.MakeupTxEffect | rollpig_cloud/routers/daily_rolls.py:187-234 | A make-up draw writes the user's ledger alone. |
| TableEffects.NoRound | rollpig_cloud/routers/roast_reservations.py:366-374 | Requests for a round that is not there are refused and change nothing. |
| TableEffects.ReconcileTxEffect | rollpig_cloud/services/reservations.py:347-402 | A reconciliation wakes every waiting round of the user and no other, and none for a make-up draw. |
| TableEffects.GrantTxEffect | rollpig_cloud/routers/protections.py:161-199 | A grant writes one row, the waiting rounds of its slot follow the level, and nothing else changes. |
| TableEffects.ReplaceTxEffect | rollpig_cloud/routers/protections.py:57-145 | After a list was replaced every waiting round of the group follows the row its target then has, and nothing else changes. |
| TableEffects.ReplacedRow | rollpig_cloud/routers/protections.py:57-136 | The row of each slot after a list was replaced; rows of other groups and dates stay. |
| TableEffects.MayClaimIff | rollpig_cloud/routers/roast_reservations.py:234-263 | A bot leases its own rounds of the date, and one that cannot gather only those neither protected nor taken over. |
| TableEffects.ClaimTxEffect | rollpig_cloud/routers/roast_reservations.py:229-305 | A claim leases what it selected under the given tokens and records capability, and changes nothing else. |
| TableEffects.FirstOutcomeCounts | rollpig_cloud/routers/roast_reservations.py:379-382 | A first outcome adds one to the count of the target's row exactly for a success of a protected round that still has one. |
| TableEffects.LaterOutcomeEffect | rollpig_cloud/routers/roast_reservations.py:369-423 | A later or refused outcome touches the round alone: nobody is fed and no count raised again. |
| TableEffects.HolderTxEffects | rollpig_cloud/routers/roast_reservations.py:437-524 | The other requests of a holder write the round alone, and a first completion frees its slot. |
| Store.AfterCommitEffect | rollpig_cloud/routers/roast_reservations.py:180-192 | After a request whose requester came or stayed aboard every waiting round of a target who is there has arrived, without a notice for the requester's own. |
| DatabaseLaws.GuardLaws | rollpig_cloud/services/reservations.py:126-145 | Copying a global row into the group keeps every waiting round in agreement. |
| DatabaseLaws.DrawTxLaws | rollpig_cloud/routers/daily_rolls.py:119-146 | A draw keeps the tables correct, and only its target arrives. |
| DatabaseLaws.MakeupTxLaws | rollpig_cloud/routers/daily_rolls.py:205-225 | A make-up draw keeps the tables correct, changes no round and lets nobody arrive. |
| DatabaseLaws.ReconcileTxLaws | rollpig_cloud/services/reservations.py:347-379 | Reconciliation records the real draw in every waiting round of its target and respects everything else. |
| DatabaseLaws.GrantTxLaws | rollpig_cloud/routers/protections.py:157-197 | A grant keeps the tables correct: the waiting rounds of its slot follow the new level. |
| DatabaseLaws.ReplaceTxLaws | rollpig_cloud/routers/protections.py:47-145 | Replacing a daily list keeps the tables correct: waiting rounds follow edited rows, and rows that stay are not out of step. |
| DatabaseLaws.RowAfterOk | rollpig_cloud/routers/protections.py:69-96 | A replaced row is correct, exists while a global row does, and is the old one wherever the list edits nothing. |
| DatabaseLaws.ClaimTxLaws | rollpig_cloud/routers/roast_reservations.py:216-310 | A claim keeps the tables correct; the only new notice tokens are those it hands out. |
| DatabaseLaws.NoticeTxLaws | rollpig_cloud/routers/roast_reservations.py:317-341 | Moving a notice keeps the tables correct and mints nothing. |
| DatabaseLaws.PrepareOutcomeTxLaws | rollpig_cloud/routers/roast_reservations.py:345-423 | Fixing an outcome, with feeds and a raised count, keeps the tables correct. |
| DatabaseLaws.BreakThroughIsAlone | rollpig_cloud/routers/roast_reservations.py:379-382 | When an outcome is first fixed no other round waits behind the same protection row, so the unsynced count does no harm. |
| DatabaseLaws.SaveOutcomeTxLaws | rollpig_cloud/routers/roast_reservations.py:437-455 | The old outcome endpoint keeps the tables correct. |
| DatabaseLaws.MarkSendingTxLaws | rollpig_cloud/routers/roast_reservations.py:458-475 | Marking as sending keeps the tables correct. |
| DatabaseLaws.CompleteTxLaws | rollpig_cloud/routers/roast_reservations.py:478-510 | Completion frees exactly its own slot and keeps the tables correct. |
| DatabaseLaws.ReleaseTxLaws | rollpig_cloud/routers/roast_reservations.py:513-524 | A release keeps the tables correct. |
| RoundLaws.SyncLaws | rollpig_cloud/services/protections.py:47-79 | A synced round agrees with the new level, keeps no stale notice and marks nobody new. |
| RoundLaws.SyncTwiceIsOnce | rollpig_cloud/services/protections.py:47-79 | Following the same protection twice is following it once. |
| RoundLaws.JoinLaws | rollpig_cloud/services/reservations.py:209-257 | A join or boost leaves a correct round without notice; only the boosting attacker is newly marked. |
| RoundLaws.TakeOverLaws | rollpig_cloud/services/reservations.py:186-208 | A takeover leaves a correct super round with the saved feeding list and no notice. |
| RoundLaws.TouchLaws | rollpig_cloud/services/reservations.py:173-257 | A request that found a round leaves it correct, spends force only if it was free, and every reconciled answer leaves no notice. |
| RoundLaws.OpenLaws | rollpig_cloud/services/reservations.py:283-325 | A new round is correct, without notice, and marks only a normal-force owner. |
| RoundLaws.ClaimLaws | rollpig_cloud/routers/roast_reservations.py:235-272 | A leased round is correct and only leaves the states from which it may be leased. |
| RoundEffects.FireCountsHeads | rollpig_cloud/services/reservations.py:335-340 | Fire is the number of participants plus the number of those who burn double. |
| RoundEffects.MemberAgain | rollpig_cloud/services/reservations.py:209-218 | A member with nothing to add changes only the sender and takes the notice back. |
| RoundEffects.ElseVerdict | rollpig_cloud/services/reservations.py:175-190 | An ignited round is busy, a round that was taken over answers its operator and refuses the others, and an override of a client that cannot gather is refused; no force use is spent. |
| RoundEffects.BusySender | rollpig_cloud/services/reservations.py:25-47 | An ignited round changes its sender exactly if it is protected, not leased, and its sender cannot gather while the requester can. |
| RoundEffects.TakeOverEffect | rollpig_cloud/services/reservations.py:186-208 | A takeover saves, in joining order, exactly those who keep their claim to be fed, changes operator, mode and sender, and is ready as soon as the target is known to be there. |
| RoundEffects.OpenEffect | rollpig_cloud/services/reservations.py:283-319 | What a new round asks for, who is aboard with how much fire, who sends it, and whether it is ready at once. |
| RoundEffects.SyncEffect | rollpig_cloud/services/protections.py:47-79 | A waiting round after a protection change: new threshold, a forced owner doubled when protection first comes, ready exactly if that is enough, a new notice exactly if it still waits for an arrived target under another threshold. |
| RoundEffects.ClaimableIff | rollpig_cloud/routers/roast_reservations.py:236-250 | A lease may start exactly on a ready round or on one that nobody sends yet whose lease is over five minutes old. |
| RoundEffects.NoticeClaimableIff | rollpig_cloud/routers/roast_reservations.py:282-296 | A notice may go out exactly for a waiting round against a protected, arrived target, if one is asked for or the last one was leased over five minutes ago. |
| RoundEffects.NoticeEffect | rollpig_cloud/routers/roast_reservations.py:313-341 | Each move of a notice is accepted exactly from its token in the states that allow it, today, while the round waits, and changes the notice alone. |
| RoundEffects.PrepareOutcomeEffect | rollpig_cloud/routers/roast_reservations.py:369-423 | A holder fixes an outcome once; the same one is confirmed later, another one refused, and feed results are written with the first only. |
| RoundEffects.SaveOutcomeEffect | rollpig_cloud/routers/roast_reservations.py:437-455 | The old endpoint accepts the same outcomes except for prepared rounds and puts the round into sending. |
| RoundEffects.HolderEffects | rollpig_cloud/routers/roast_reservations.py:458-524 | Sending, completing and releasing are accepted exactly from the holder in the states that allow them, and do just that. |
| RoundEffects.SettlesFor | rollpig_cloud/routers/roast_reservations.py:386-397 | The users an outcome feeds: the saved ones after a takeover, else those who paid no force use against a protected target, else everybody in an unforced round; nobody without success or settling. |
| RoundLaws.ArrivedIsNeverFull | rollpig_cloud/services/reservations.py:219-223 | A waiting round whose target has arrived has room, and lacks at most five fire. |
| RoundLaws.NewcomersIgnite | rollpig_cloud/services/reservations.py:209-257 | Distinct newcomers leave such a round pending exactly while they are fewer than the fire it lacks, so at most five ignite it. |
| ProtectionLevels.LevelIsHighest | rollpig_cloud/services/protections.py:21-30 | The level in force is that of the highest source, each at its award plus the break-throughs since it was made, at most five. |
| ProtectionLevels.BreakThroughRaises | rollpig_cloud/services/protections.py:24-30 | A break-through raises every awarded source and the level in force by one, up to five. |
| ProtectionLevels.GrantEffect | rollpig_cloud/routers/protections.py:171-196 | A grant lifts the manual source to the granted level if it is lower and leaves the other sources, the count and the days alone. |
| ProtectionLevels.DelistEffect | rollpig_cloud/routers/protections.py:67-100 | A user off the list keeps what was granted and what the global row protects at the higher of its own and the inherited level; the row goes exactly when that is nothing. |
| ProtectionLevels.EnlistEffect | rollpig_cloud/routers/protections.py:101-136 | A listed user gets the daily source once, at the initial level plus the consecutive days before or, for a historical row, at its inherited level, and keeps the other sources. |
| ProtectionLevels.FloorClimbs | rollpig_cloud/services/protections.py:21-30 | From an award on, any later operations leave a level of at least the award plus the break-throughs, up to five. |
| Protections.GrantIsMaximum | rollpig_cloud/routers/protections.py:166-195 | A grant makes the level the maximum of the level before and the grant. |
| Protections.OpKeepsOk | rollpig_cloud/routers/protections.py:57-195 | Every row operation keeps levels in 1 to 5 and baselines at most the count. |
| Protections.OpKeepsGrant | rollpig_cloud/routers/protections.py:69-96 | Nothing lowers a manual source, deletes a row that has one, or loses a break-through. |
| Protections.ProtectionFloor | rollpig_cloud/routers/protections.py:166-200 | The floor set by a grant under any later row operations of the date, with the exact count. |
| Protections.ReplaceTwiceIsOnce | rollpig_cloud/routers/protections.py:69-136 | Replacing one user's row twice with the same list equals once. |
| Protections.StreakIsRunLength | rollpig_cloud/routers/protections.py:113-135 | For one user's row operations, date after date and with any initial level per list, consecutive_days is the length of the run of awarded dates and the daily level is min(5, initial + run - 1). |
| Usage.ClampChargeSettings | rollpig_cloud/services/usage.py:14-19 | The client's settings are brought into 1 to 6 charges and 60 seconds to 7 days. |
| ChargeEffects.SettingsAre | rollpig_cloud/services/usage.py:14-19 | A missing or zero setting takes its default, one inside its range is kept, one outside moves to the nearer end. |
| ChargeEffects.ReplyIs | rollpig_cloud/services/usage.py:53-112 | The reply names the whole charges left and the seconds until the next one; the last roast is written exactly when it is allowed. |
| ChargeEffects.ForceEffect | rollpig_cloud/services/usage.py:115-125 | A force use writes its date alone and is granted exactly if the row does not hold it. |
| Usage.RecoverMeasures | rollpig_cloud/services/usage.py:32-43 | Recovery shows exactly the whole charges of the stored seconds and keeps the remainder. |
| Usage.RecoverComposes | rollpig_cloud/services/usage.py:32-43 | Recovering at t1 and then at t2 equals recovering at t2. |
| Usage.LegacyIsOneCharge | rollpig_cloud/services/usage.py:22-29 | A legacy row stands for one charge left at its last roast. |
| Usage.ConsumeMeasures | rollpig_cloud/services/usage.py:53-112 | A roast is allowed exactly when one charge is stored, takes exactly that, and a refusal names exactly the missing seconds. |
| Usage.TickRefines | rollpig_cloud/services/usage.py:32-43 | One second later the lazy row means what a second-by-second bucket holds after one tick. |
| LedgerEffects.DrawEffect | rollpig_cloud/services/progress.py:83-151 | A draw freezes the levels counted from the rows before and after it, its copies, and whether it was a make-up draw. |
| LedgerEffects.FeedEffect | rollpig_cloud/services/progress.py:154-275 | Every answer of a feed with its exact condition and effect, in counted levels. |
| LedgerEffects.UncountedPig | rollpig_cloud/services/progress.py:85-151 | Pigs from before copies were counted stand for one draw. |
| Growth.DrawKeepsLedger | rollpig_cloud/services/progress.py:83-152 | A draw keeps copies, collection size, streak and frozen snapshots true and rewrites no row. |
| Growth.FeedKeepsLedger | rollpig_cloud/services/progress.py:155-275 | A newly recorded feed raises the level by exactly one and nothing else changes a level; the ledger stays true. |
| Growth.FeedAllPointwise | rollpig_cloud/routers/roast_reservations.py:398-413 | Feeding distinct users one after the other is feeding each of them alone. |
| Growth.SortedInOrder | rollpig_cloud/routers/roast_reservations.py:408-411 | Users are locked in increasing order. |
| ReportEffects.DeadlineIs | rollpig_cloud/routers/daily_reports.py:56-64 | The deadline is ten past midnight of the next day in UTC+8. |
| ReportEffects.ClaimEffect | rollpig_cloud/routers/daily_reports.py:394-475 | What a claim does to a row and hands out, exactly: failing what is late or exhausted, returning an own lease, taking what is due or lost. |
| ReportEffects.MoveAcceptedIff | rollpig_cloud/routers/daily_reports.py:517-607 | A transition is accepted exactly from the token's holder in a state it applies to and, to start sending, before the deadline; a late start fails the delivery, any other refusal changes nothing. |
| ReportEffects.MoveEffect | rollpig_cloud/routers/daily_reports.py:549-599 | An accepted transition reaches its state and keeps the first moment of sending and the message id. |
| ReportEffects.BatchEffect | rollpig_cloud/routers/daily_reports.py:394-485 | A whole claim creates missing rows, claims each of its groups, hands out what it then holds and leaves other rows alone. |
| ReportEffects.WakeUpIs | rollpig_cloud/routers/daily_reports.py:108-128 | When a row is worth asking for again. |
| Reports.NoAba | rollpig_cloud/routers/daily_reports.py:131-166 | A waiting or leased row that looks unchanged is unchanged. |
| Reports.ClaimIsAtomic | rollpig_cloud/routers/daily_reports.py:394-475 | A claim that hits has exactly the effect of one that read the row at that moment; one that misses changes nothing. |
| Reports.MoveIsAtomic | rollpig_cloud/routers/daily_reports.py:520-636 | A transition that hits has exactly the effect and the answer of one that read the row at that moment; one that misses changes nothing. |
| Reports.ClaimKeepsTable | rollpig_cloud/routers/daily_reports.py:394-475 | A claim keeps rows correct and lease tokens distinct. |
| RefillEffects.ThresholdIsLeast | rollpig_cloud/services/roast_refills.py:27-66 | The votes needed are the least number from two on that covers the percentage of the policy and round or reaches its cap. |
| RefillEffects.OpenEffect | rollpig_cloud/services/roast_refills.py:232-313 | When a request finds a running vote, too few users or a taken key, or opens a vote, exactly, and what the new vote is. |
| RefillEffects.BindEffect | rollpig_cloud/services/roast_refills.py:335-356 | A message is bound exactly to a running vote in time that has none or this one. |
| RefillEffects.FailEffect | rollpig_cloud/services/roast_refills.py:359-378 | A running vote is given up exactly by who names no message or its own. |
| RefillEffects.MarkEffect | rollpig_cloud/services/roast_refills.py:93-135 | Marking users active adds exactly these to their group's date and removes nobody. |
| RefillEffects.ExpireEffect | rollpig_cloud/services/roast_refills.py:220-229 | A vote over time is ended when looked at and its key freed; nothing else happens. |
| Refills.ThresholdIsMonotone | rollpig_cloud/services/roast_refills.py:46-66 | More active users or earlier successes never lower the votes needed, under either policy. |
| Refills.ThresholdIsFair | rollpig_cloud/services/roast_refills.py:46-66 | The votes needed are at least two, at most the active users, at most the legacy threshold, and at most 20 when capped. |
| UsageRuns.UsageStepLaw | rollpig_cloud/services/reservations.py:268-281 | Every step treats every user's charges as a roast, a refill, a force use or not at all, and grants an ordinary roast exactly when the bucket allows it. |
| Usage.UsageTable.ConsumeRoastUsage | rollpig_cloud/services/usage.py:53-112 | The handler's field edits do what ConsumeRoast says. |
| Usage.UsageTable.ConsumeForceUsage | rollpig_cloud/services/usage.py:115-125 | Allowed exactly if the last force date is another one, which is then this one. |
| Usage.UsageTable.ResetRoastCharges | rollpig_cloud/services/roast_refills.py:167-218 | Fills the buckets of the given users and touches nobody else. |
| Usage.UsageTable.MigrateExistingUserUsage | rollpig_cloud/migrations.py:71-103 | The loop migrates every legacy row and no other, in any order. |
| Growth.GrowthTable.ApplyCreatedRollProgress | rollpig_cloud/services/progress.py:83-152 | The handler's edits do what Draw says, frozen outcome included. |
| Growth.GrowthTable.GetOrCreateRoll | rollpig_cloud/routers/daily_rolls.py:90-146 | A day's first draw inserts one row; a repeated one changes nothing. |
| Growth.GrowthTable.ApplyDailyFeed | rollpig_cloud/services/progress.py:155-275 | The handler's edits do what Feed says. |
| Growth.GrowthTable.SettleFeeds | rollpig_cloud/routers/roast_reservations.py:393-415 | Feeds in lock order, lists the results in joining order. |
| Reports.DeliveryTable.FailDeliveryIfUnchanged | rollpig_cloud/routers/daily_reports.py:131-166 | The conditional UPDATE fails the row exactly if status, token and attempts are as they were read. |
| Reports.DeliveryTable.ClaimRow | rollpig_cloud/routers/daily_reports.py:394-470 | One row of a claim with a possibly stale read does what Claim says. |
| Reports.DeliveryTable.ClaimOnce | rollpig_cloud/routers/daily_reports.py:340-485 | A claim over many groups creates missing rows, leases exactly those it may and returns the first worthwhile next moment. |
| Reports.DeliveryTable.NextClaimAt | rollpig_cloud/routers/daily_reports.py:108-128 | The loop computes the least wake-up moment of the rows that are not the requester's. |
| Reports.DeliveryTable.TransitionDailyReport | rollpig_cloud/routers/daily_reports.py:502-636 | A transition with a possibly stale read does what Move says. |
| ReservationRows.Reservation.TotalFire | rollpig_cloud/services/reservations.py:337-338 | The loop adds up the contributions. |
| ReservationRows.Reservation.Activate | rollpig_cloud/services/reservations.py:328-344 | Field by field the handler does what Activate says and reports whether the round ignited. |
| ReservationRows.Reservation.UpdateDeliveryCapability | rollpig_cloud/services/reservations.py:39-46 | Field by field, what UpdateDelivery says. |
| ReservationRows.Reservation.TakeOver | rollpig_cloud/services/reservations.py:186-207 | Field by field, what TakeOver says, with the feeding list saved first. |
| ReservationRows.Reservation.FeedListWithout | rollpig_cloud/services/reservations.py:192-196 | The loop lists the spared members in joining order. |
| ReservationRows.Reservation.Join | rollpig_cloud/services/reservations.py:226-253 | Field by field, what Join says. |
| ReservationRows.Reservation.SyncProtection | rollpig_cloud/services/protections.py:58-79 | Field by field, what Sync says. |
| ReservationRows.Reservation.Lease | rollpig_cloud/routers/roast_reservations.py:264-272 | Field by field, what ClaimRound says. |
| ReservationRows.Reservation.MoveNotice | rollpig_cloud/routers/roast_reservations.py:324-340 | Field by field, what MoveNotice says. |
| ReservationRows.Reservation.CheckOutcome | rollpig_cloud/routers/roast_reservations.py:366-374 | The branches decide between refusal, repetition and first outcome as PrepareFixing says. |
| ReservationRows.Reservation.SaveOutcome | rollpig_cloud/routers/roast_reservations.py:444-453 | Field by field, what SaveOutcome says. |
| ReservationRows.Reservation.MarkSending | rollpig_cloud/routers/roast_reservations.py:465-473 | Field by field, what MarkSending says. |
| ReservationRows.Reservation.Complete | rollpig_cloud/routers/roast_reservations.py:485-494 | Field by field, what Complete says. |
| ReservationRows.Reservation.Release | rollpig_cloud/routers/roast_reservations.py:518-522 | Field by field, what Release says. |
| ReservationRows.Reservation.EligibleMembers | rollpig_cloud/routers/roast_reservations.py:395-397 | The loop lists the members a success feeds in joining order. |
| ProtectionRows.GroupProtection.Grant | rollpig_cloud/routers/protections.py:186-195 | The dictionary edits of a grant do what Grant says. |
| ProtectionRows.GroupProtection.Delist | rollpig_cloud/routers/protections.py:69-99 | The dictionary edits of a removal do what Delist says and tell whether the row is to be deleted. |
| ProtectionRows.GroupProtection.Enlist | rollpig_cloud/routers/protections.py:112-135 | The dictionary edits of an award do what Enlist says and tell whether there was anything to edit. |
| Store.RoastStore.PrepareReservation | rollpig_cloud/services/reservations.py:110-325 | The handler does to the tables exactly what the transaction says; a conflict leaves them as they were. |
| Store.RoastStore.PrepareAndReconcile | rollpig_cloud/routers/roast_reservations.py:174-200 | The endpoint: one retry after a conflict, then reconciliation with the draw as it is by then. |
| Store.RoastStore.Apply | rollpig_cloud/services/reservations.py:173-257 | The edits to the loaded row and the force use they cost are those of Touch. |
| Store.RoastStore.OpenReservation | rollpig_cloud/services/reservations.py:259-325 | Charges, opens and inserts; a taken slot undoes the charge. |
| Store.RoastStore.ActivateTargetReservations | rollpig_cloud/services/reservations.py:347-379 | The loop is the reconciliation transaction. |
| Store.RoastStore.ActivateIfTargetAlreadyRolled | rollpig_cloud/services/reservations.py:382-402 | Reads the draw again and reconciles with it, or does nothing. |
| Store.RoastStore.CreateDailyRoll | rollpig_cloud/routers/daily_rolls.py:119-146 | Inserts the draw and activates the locked waiting rounds in one transaction. |
| Store.RoastStore.GetOrCreateDailyRoll | rollpig_cloud/routers/daily_rolls.py:90-179 | The endpoint: a first or repeated real draw is reconciled after its commit, a make-up draw only answered. |
| Store.RoastStore.MakeupDailyRoll | rollpig_cloud/routers/daily_rolls.py:187-234 | Inserts a make-up draw and touches no round. |
| Store.RoastStore.SyncPendingProtection | rollpig_cloud/services/protections.py:47-79 | The loop syncs exactly the waiting rounds of the slot. |
| Store.RoastStore.GrantProtection | rollpig_cloud/routers/protections.py:157-197 | The handler is the grant transaction, and reports a change exactly if the level rises. |
| Store.RoastStore.ReplaceGroup | rollpig_cloud/routers/protections.py:47-145 | The loops over removed and listed users, one row and its rounds after the other, are the replacement transaction. |
| Store.RoastStore.Claim | rollpig_cloud/routers/roast_reservations.py:216-310 | The handler selects only claimable rows that are not excluded, up to the limit and all of them below it, gives each a token of its own, and is the claim transaction for them. |
| Store.RoastStore.TransitionWaitingNotice | rollpig_cloud/routers/roast_reservations.py:313-341 | The handler is the notice transaction. |
| Store.RoastStore.PrepareOutcome | rollpig_cloud/routers/roast_reservations.py:345-423 | The handler fixes the outcome, raises the count and settles the feeds exactly as the transaction says. |
| Store.RoastStore.SaveOutcome | rollpig_cloud/routers/roast_reservations.py:437-455 | The handler is the transaction. |
| Store.RoastStore.MarkSending | rollpig_cloud/routers/roast_reservations.py:458-475 | The handler is the transaction. |
| Store.RoastStore.Complete | rollpig_cloud/routers/roast_reservations.py:478-510 | The handler is the transaction; the slot is freed once. |
| Store.RoastStore.Release | rollpig_cloud/routers/roast_reservations.py:513-524 | The handler is the transaction. |
| RefillStore.RefillBoard.PrepareRefill | rollpig_cloud/services/roast_refills.py:232-313 | The handler does what Prepare says; a key conflict changes nothing. |
| RefillStore.RefillBoard.ExpireIfNeeded | rollpig_cloud/services/roast_refills.py:223-229 | Ends a vote whose time is over and frees its key. |
| RefillStore.RefillBoard.GetActiveRefill | rollpig_cloud/services/roast_refills.py:316-332 | Returns the group's vote exactly if it is running and in time, and expires one that is over. |
| RefillStore.RefillBoard.BindRefillMessage | rollpig_cloud/services/roast_refills.py:335-356 | The handler does what Bind says. |
| RefillStore.RefillBoard.FailRefill | rollpig_cloud/services/roast_refills.py:359-377 | The handler does what Fail says. |
| RefillStore.RefillBoard.CompleteRefill | rollpig_cloud/services/roast_refills.py:383-470 | The handler counts, pays and closes exactly as Complete says. |
| RefillStore.RefillBoard.MarkGroupActiveUsers | rollpig_cloud/services/roast_refills.py:93-148 | Adds the users to the day's active users of the group. |

## Left out

- HTTP routing, authentication, request schemas, middleware and key usage counters: plumbing without state of its own.
- SQL dialects, lock waits, deadlock retries and schema migrations other than the charge migration: the model keeps row
  locks, snapshots, unique keys and rollback.
- Names, texts, food, images, appearance snapshots and the protection source that picks a wording: carried data.
- Event recording, roast statistics, group roll registration, active-user marks by roasting handlers, report profiles and
  the catalogue: listings and aggregates.
- Binding a reply message to a round: a join by reply is a join bound to one expected round, made by an attacker with a
  real draw, without a reconciliation of its own.
- Replacing or granting protection for the pseudo group `__all__`: global rows are fixed at the start of a run.
- The rule that a make-up draw is for yesterday and that grants and notices are for today: dates are parameters and the
  results hold for every date.
- Store.RoastStore.Claim: which rows come first when there are more than the limit is left open; the query orders them by
  their row number, which the model does not have.
- Store.RoastStore.PrepareAndReconcile: attempt, retry and reconciliation run with nobody in between; what others may do in
  between is the subject of the run theorems, where each is a step of its own.
- Store.RoastStore.GetOrCreateDailyRoll: the draw and its reconciliation run with nobody in between, for the same reason.
- Reports.DeliveryTable.ClaimOnce: nobody interferes between the read and the update of its rows; stale reads of a single
  row are covered by Reports.DeliveryTable.ClaimRow and Reports.HistoryIsAtomic.
- Refills.BoardAlwaysOk: the count of earlier successes is read as current within its transaction; a snapshot that misses
  a success that commits between the reads of one preparation is not modelled.
- Growth.DrawKeepsLedger: the collection is counted as current when a draw freezes its size; the code counts it with a
  plain read, so a draw and a make-up draw of one user that run at the same time may each miss the other's new pig. The
  same holds for Growth.LedgerAlwaysHolds and RoastRuns.LedgersAlwaysTrue.
- RefillStore.RefillBoard.CompleteRefill: user lists are sets, so the sorted order of the stored list is not modelled.
- Usage.DenialIsExact: whole seconds, as the code truncates its clock; fractions of a second are not modelled.
