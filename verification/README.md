# Licence provisioning: a verified model

The repository is a backend that sells and provisions licences for partners. Requests reserve seats of a partner's
quota, a job adds the seats at Google, and settling the job refunds what was not used. Any number of threads, worker
processes and servers work on the same documents, and the only thing they share is a store with versioned reads and
compare-and-swap writes. This project models that store, the concurrency protocols built on it and the sequential
cores around them, and proves what they are for.

| module | what it models |
|---|---|
| `Text`, `Values` | decimal text of integers; documents as dictionaries of JSON-like values |
| `Codec` | the Firestore value codec |
| `Store` | the in-memory store, and how far its version tokens can be trusted |
| `Shared` | one document and the clock as one thread sees them while all others do as they like |
| `Batching` | group commit of one thread: what a caller is promised, the batch, the save loop, the queue's critical sections |
| `GroupCommit` | group commit of any number of servers, callers and rival writers, as a state machine |
| `Saving`, `Arrival` | why a caller of group commit may be told it was not saved; the order in which callers are served |
| `Quota` | the quota update, and the cap under group commit |
| `PlanSlots` | plan slots: density, bulk assignment, blocks under group commit |
| `Ledger` | reservations, jobs, settlements, refunds and licence changes of one partner, as a state machine |
| `JobLease` | claim, heartbeat and settlement of one job: state machine and retry loops |
| `Locks` | the expiring domain lock: state machine and calls |
| `Idempotency` | idempotency keys: state machine and calls |
| `Accept` | one call of `accept` on counter, lock and key, amid other threads, with every failure its calls can have |
| `SeatPlan`, `SeatWorkflow` | the two seat planners; the seat workflow under crashes and lost replies |
| `SeatProgress` | when an attempt of the seat workflow ends, and how |
| `Overlap` | several attempts of one job scaling the same subscription at once |
| `Settlement` | what a job is charged in the end, whoever settles it and whatever its worker still does |
| `LicenceChange` | one licence change on counter and subscription: reservation, resize with retries, way back |
| `Email` | name parts and corporate addresses |
| `FailureIndex` | the two-query list of admin failures |
| `Usage` | the daily licence report |

A protocol is a relation `Next(s, t, step)`: every store call, every critical section and every hand-over is one
step, and a run is any finite sequence of steps. Invariants are proved for every reachable state, results for every
run. Loops and state changes of a single thread are methods; where other threads may get in between two store calls,
the method lets them do anything (`SharedCell.OthersRun`), and its contract speaks about the history of the document.

## Assumptions

- A store call that raises had no effect. Versions never repeat, as with Firestore's `updateTime`, except in `Store`,
  which models the in-memory counter and shows what its repetition costs.
- One monotone clock. Tokens, job ids and batch ids are fresh. A job's document id is its job id.
- The 300 second wait of `update_document` does not expire, drain threads start, and no `BaseException` is raised.
- Partner, job and plan-counter documents are not deleted by the modelled flows.
- A call to Google succeeds, fails without effect, or is applied while its reply is lost; then it is made again or given up.
- Seats: one attempt of a job is alive at a time, and nobody else changes the domain's seats meanwhile. The job's lease
  and the domain lock are there for that; `Overlap.ShrinksIff` says what happens without.

## Where the code does not meet its promise

Each of these is a lemma with an input, or an exact condition.

- Group commit promises each caller "exactly the result it would have had running alone"; a batch uses its leader's
  default document, so that holds for a caller with another default only if the document exists
  (`GroupCommit.AsAloneIff`, `GroupCommit.FollowerRefused`).
- If dispatch fails after the job was stored, `accept` gives the seats back and the reconciler gives them back again
  (`Ledger.DispatchFailureLosesSeats`). Usage is what is owed exactly on the runs in which no such give-back takes
  anything off the counter (`Ledger.ConservesIff`).
- The clamp at zero hides a release of seats nobody was charged for (`Ledger.OverReductionClamps`); a reduction can
  make it fire exactly when it exceeds what is backed (`Ledger.ReductionClampsIff`).
- `accept` is all-or-nothing except for the failures listed by `Accept.LeavesTraces` and what the clamp at zero cuts
  off; the condition is exact (`Accept.Run`).
- The in-memory store forgets a version counter on deletion, so an old token is accepted again
  (`Store.TokenAcceptedIff`), and a stale release can remove a stranger's lock (`Locks.StaleReleaseBreaksLock`).
- A release is lost when a renewal of the same lock gets in between (`Locks.ReleaseTakesEffectIff`,
  `Locks.RenewalLosesRelease`).
- `claim` may tell a caller its own id without having claimed the key, if the key was forgotten between its two calls
  (`Idempotency.OwnIdWithoutClaim`, `Idempotency.ToldItsOwnId`).
- A job that is charged from its record, because its attempt failed or its worker is gone, is charged nothing for
  seats Google added before the record was written (`SeatWorkflow.NotedChargeIff`, `SeatWorkflow.FailedJobUncharged`).
- A job that the reconciler settles while its worker only stalled is charged nothing for what the worker still adds
  (`Settlement.SettledChargeIff`, `Settlement.StalledWorkerUncharged`).
- A retried resize starts over from its first step and so can take seats away again (`LicenceChange.IncreaseClimbsIff`,
  `LicenceChange.RetryShrinks`), and one that is given up after a call reached Google leaves quota and Google apart,
  also when only its reply was lost (`LicenceChange.ChangeLicences`, `LicenceChange.LostReplyDrifts`). Even when nothing
  fails, they part by what the clamp at zero cuts off: when more is to be lowered than the counter holds
  (`LicenceChange.OverReductionIsCut`, `LicenceChange.GiveBackIsCut`).
- The failure list misses a job whose document lacks a field the second query asks for
  (`FailureIndex.ListAdminFailures`, `FailureIndex.MissedFailure`).
- A report filtered to a partner literally called "(none)" misses the work without a partner
  (`Usage.FilteredReportIff`, `Usage.NoneReportMisses`).

## Model

| member | source | states |
|---|---|---|
| `Text.ParseIntOfText` | app/repositories/firestore_client.py:39-40 | Every integer, negative ones included, survives its decimal text. |
| `Codec.DecodeEncode` | app/repositories/firestore_client.py:33-86 | What is read back is the stored value with every datetime and foreign object replaced by its text, at any depth. |
| `Codec.RoundTrip` | app/repositories/firestore_client.py:33-86 | A value comes back unchanged if and only if it is built from null, bool, int, float, string, list and dict. |
| `Codec.SecondTripIsIdentity` | app/repositories/firestore_client.py:33-86 | Whatever the first round trip changed, a second one changes nothing. |
| `Codec.TrimIsInvisible` | app/repositories/firestore_client.py:76-85 | Reading is blind to the server leaving out the member of an empty list or map, at any depth. |
| `Codec.DocRoundTrip` | app/repositories/firestore_client.py:89-97 | A whole document survives storing, trimming and reading if and only if all its fields are plain. |
| `Codec.ScalarsOnTheWire` | app/repositories/firestore_client.py:33-44 | Null, booleans, floats and strings are sent under their own tag with their own value, integers as text that reads as that integer. |
| `Codec.TimestampSaysMoment` | app/repositories/firestore_client.py:45-50 | A stored datetime comes back as text that says its date, time and zone, UTC if it had none; a plain date as its midnight in UTC; a foreign object as what str prints. |
| `Store.InMemoryStore.Bump` | app/repositories/firestore_client.py:160-162 | Only the counter of this document moves, by one, from 0 if it had none. |
| `Store.InMemoryStore.Set` | app/repositories/firestore_client.py:168-173 | Replaces the document, moves its counter on, touches no other document. |
| `Store.InMemoryStore.Update` | app/repositories/firestore_client.py:175-182 | Merges the fields into the document, or into an empty one, moves the counter on, touches nothing else. |
| `Store.InMemoryStore.Delete` | app/repositories/firestore_client.py:184-188 | Removes document and counter, touches nothing else. |
| `Store.InMemoryStore.GetVersioned` | app/repositories/firestore_client.py:190-195 | Returns the document with its counter, or neither. |
| `Store.InMemoryStore.SetIfVersion` | app/repositories/firestore_client.py:197-207 | Writes exactly when the token fits the document as it is now; otherwise changes nothing. |
| `Store.InMemoryStore.DeleteIfVersion` | app/repositories/firestore_client.py:209-215 | Deletes exactly when the token is the counter; otherwise changes nothing. |
| `Store.CounterAfter` | app/repositories/firestore_client.py:160-188 | The counter after any history of writes and deletions: the writes since the last deletion, on top of the old counter if there was none. |
| `Store.TokenAcceptedIff` | app/repositories/firestore_client.py:197-215 | After any history an old token is accepted, by a swap and by a conditional delete alike, if and only if nothing happened, or the document was deleted and rewritten until its counter came back. |
| `Store.SwapSeesEveryWrite` | app/repositories/firestore_client.py:141-146 | The promise of set_if_version: while nobody deletes the document, a swap succeeds if and only if it is unchanged since the token was read. |
| `Store.TokenReuse` | app/repositories/firestore_client.py:209-215 | After delete and re-create a token of the first document is accepted for the second, by swap and by conditional delete. |
| `Shared.SharedCell.SetIfVersion` | app/repositories/firestore_client.py:364-374 | The compare-and-swap with stamps that never repeat: writes, and adds to the history, exactly when the stamp fits. |
| `Shared.SharedCell.DeleteIfVersion` | app/repositories/firestore_client.py:376-385 | The conditional delete with stamps that never repeat. |
| `Shared.SharedCell.OthersRun` | app/repositories/firestore_client.py:137-149 | What a thread may assume about the others: earlier contents stay history, an unmoved stamp means an untouched document, and contents marked as its own are written by nobody else. |
| `Batching.UnchangedWhenAllRefused` | app/repositories/batching.py:178 | When every update of a batch is refused, running them all leaves the document as it was, so nothing needs saving. |
| `Batching.DefaultMattersIff` | app/repositories/batching.py:156-164 | Processing a caller's update with the leader's default is as good as its own, for every update, if and only if the document exists or the defaults agree. |
| `Batching.ApplyBatch` | app/repositories/batching.py:164-176 | The batch yields for every caller what its update yields after its predecessors ran alone, one by one, raising ones without effect; and the copy is the document they leave. |
| `Batching.TryToSave` | app/repositories/batching.py:157-184 | One turn against arbitrary other writers: if it answers, all answers fit the content directly before the save, and the save follows it with nothing in between; it goes round again only if another writer got in between, and raises only if a store call does. |
| `Batching.SaveBatch` | app/repositories/batching.py:156-188 | The save loop answers as if the batch had run at one point of the document's history during the call, with at most one write and none if every update was refused; or fails without a write, after thirty lost races or because a store call raised. |
| `Batching.Process` | app/repositories/batching.py:140-153 | Every caller of a batch is finished: all from one point of the history, or all with contention, or all with what a raising store call raised. |
| `Batching.Queue.Join` | app/repositories/batching.py:89-93 | Queues the caller at the end; exactly the one that finds the queue idle leads. |
| `Batching.Queue.TakeBatch` | app/repositories/batching.py:99-100 | Takes everyone who waits, in order, and leaves the queue empty. |
| `Batching.Queue.LeaderLooksAgain` | app/repositories/batching.py:104-107 | Goes idle if and only if nobody waits. |
| `Batching.Queue.DrainTurn` | app/repositories/batching.py:123-129 | Goes idle if nobody waits, otherwise takes everyone. |
| `GroupCommit.KeepInv` | app/repositories/batching.py:73-188 | Every step of every thread, server and rival writer keeps the protocol's invariant. |
| `GroupCommit.Linearizable` | app/repositories/batching.py:9-14 | In every reachable state the document is the replay of the commit order, and every caller that returned took effect exactly once, between its call and its return, with the value or exception its update yields there, on its leader's default if there was no document; or was told it was not saved, for which `Saving.NotSavedHasCause` gives the causes, and had no effect. |
| `Saving.NotSavedHasCause` | app/repositories/batching.py:156-188 | On every run: a caller is told of a store failure only if a store call of its server's serving thread raised since the call, and of contention only if somebody else moved the document on thirty times in that time; otherwise its update has its place in the order. |
| `Saving.UndisturbedIsSaved` | app/repositories/batching.py:178-184 | Where no store call raises, no rival writes and no other server swaps while a call is open, its update takes effect. |
| `Arrival.ArrivalOrder` | app/repositories/batching.py:9-12 | Waiting updates are applied in arrival order: of two calls of one server the one made first comes first in the commit order, if both have taken effect. |
| `GroupCommit.AsAloneIff` | app/repositories/batching.py:80-86 | That is what the caller's own default would have given, whatever its update, if and only if the document existed at its place or the default used, which is always some caller's, is its own. |
| `GroupCommit.SameDefaultAlone` | app/repositories/batching.py:80-86 | Where all callers of a document pass the same default, every update was applied with it. |
| `GroupCommit.FollowerRefused` | app/repositories/batching.py:99-102 | A run in which a follower is refused for a missing document that running alone it would have created. |
| `GroupCommit.RunFollows` | app/repositories/batching.py:48-50 | The commit order only grows, and no caller is ever answered twice or differently. |
| `GroupCommit.RealTimeOrder` | app/repositories/batching.py:9-14 | A call that returned before another was made comes first in the commit order. |
| `GroupCommit.QueueIntegrity` | app/repositories/batching.py:87-129 | In every reachable state an active queue has exactly one serving thread, an idle one has none and is empty, and every unanswered caller is held exactly once, by its own queue. |
| `GroupCommit.SomeoneWorks` | app/repositories/batching.py:95-129 | As long as a caller waits, the thread that serves its queue exists and can take a step; nobody is stranded. |
| `GroupCommit.WorkIsBounded` | app/repositories/batching.py:121-188 | However threads interleave and rivals write, serving a queue takes at most 67 steps per call made on it, so draining terminates. |
| `Quota.AdjustOpAdjusts` | app/repositories/reseller_repository.py:100-108 | The update on any stored record: an unreadable one raises; on a readable one it is refused, with the three numbers, exactly beyond the cap; otherwise counter and update time are set, every other field stays as it was, and the record after its own change is handed out. |
| `Quota.Partner.Change` | app/repositories/reseller_repository.py:90-110 | One thread's change amid others: refused exactly beyond the cap; otherwise the counter moves by the amount, less what the clamp at zero cuts off, which only a decrease can meet. |
| `Quota.NeverRaisedPastCap` | app/repositories/reseller_repository.py:90-98 | Whatever an admin does to the cap meanwhile, no change raises usage beyond the cap in force. |
| `Quota.WithinCap` | app/repositories/reseller_repository.py:90-98 | With a fixed cap usage is within 0 and the cap at every point of the commit order. |
| `Quota.ReplyIsExact` | app/repositories/reseller_repository.py:90-110 | A caller is refused exactly when its own seats do not fit at its own place in the order; otherwise it is shown the usage right after its own change. |
| `Quota.CapIsSafe` | app/repositories/reseller_repository.py:90-110 | Both of these in every reachable state of group commit, where all other fields of the record move only by rival writes. |
| `Quota.UndisturbedIsDecided` | app/repositories/reseller_repository.py:90-110 | A reservation that no raising store call, rival write or other server gets in the way of is saved, or refused exactly because its seats do not fit at its place. |
| `PlanSlots.Density` | app/services/provisioning_intake.py:71-73 | Any n slots after the first f hold exactly (f+n)/every - f/every commitment slots. |
| `PlanSlots.ExactShare` | app/repositories/coordination_repository.py:108-110 | Any k*every consecutive slots hold exactly k commitment slots, wherever the counter stands. |
| `PlanSlots.NoCommitments` | app/services/provisioning_intake.py:71-73 | With every not positive there are no commitment slots. |
| `PlanSlots.AssignBulkPlans` | app/services/provisioning_intake.py:367-378 | The valid items of a bulk call get the plans of one block of slots in list order, the others none, and as many commitments as the block holds. |
| `PlanSlots.BulkShare` | app/services/provisioning_intake.py:367-378 | The number of commitments chosen depends only on the first slot and the number of valid items. |
| `PlanSlots.TakeTakesBlock` | app/repositories/coordination_repository.py:121-128 | The queued update moves the counter by the block size, returns the counter before it, sets the update time and leaves every other field; the default record is the partner's, with counter 0. |
| `PlanSlots.BlocksPartitionSlots` | app/repositories/coordination_repository.py:118-128 | In every reachable state of group commit every slot handed out belongs to exactly one call, and every caller was told the counter before its own block; all other fields of the record move only by rival writes. |
| `Ledger.KeepInv` | app/services/provisioning_intake.py:154-324 | Every step keeps the books balanced and every job settled at most once. |
| `Ledger.Conservation` | app/services/provisioning_intake.py:154-202 | On every run: usage is reservations in flight, plus reservations of unsettled jobs, plus what settled jobs were charged up to their reservation, plus refunds to come, plus licence changes; less what was given back although a stored job holds it, plus what the clamp cut off. |
| `Ledger.CarefulRunConserves` | app/repositories/reseller_repository.py:100-108 | As long as no reduction exceeds what is backed and nothing is taken off the counter for an undispatched job, usage is exactly what is owed and covers every amount still to be given back; and while no such job's seats are given back at all, the clamp at zero never fires. |
| `Ledger.ConservesIff` | app/services/provisioning_intake.py:182-202 | On a run with covered reductions usage is what is owed at every moment if and only if no give-back for a stored job whose dispatch failed takes anything off the counter. |
| `Ledger.ReductionClampsIff` | app/services/domain_service.py:174-180 | From exact books a reduction can make the clamp fire later, without any further reduction and without giving back what a stored job holds, if and only if it exceeds what settled jobs, confirmed changes and lost seats back. |
| `Ledger.CommitIsCounterStep` | app/repositories/reseller_repository.py:90-112 | Every entry of the group commit order of a partner record moves the counter exactly as one ledger step: a raise, a refusal, a lowering, or not at all. |
| `Ledger.SettledExactlyOnce` | app/repositories/job_repository.py:133-146 | With any number of workers and reconcilers at most one call of mark_settled ever returned a job, and one did exactly when the job is settled. |
| `Ledger.RefundedOnce` | app/services/provisioning_intake.py:279-294 | No two settling threads refund the same job. |
| `Ledger.SettledForGood` | app/repositories/job_repository.py:133-146 | A settled job stays settled, with its charge and its reservation. |
| `Ledger.OnlyRaisedWithinCap` | app/repositories/reseller_repository.py:100-108 | No step of the ledger raises usage beyond the cap in force. |
| `Ledger.CapHolds` | app/services/domain_service.py:157-180 | With a fixed cap usage stays within 0 and the cap under any mix of accepts, settlements, cuts and licence changes. |
| `Ledger.DispatchFailureLosesSeats` | app/services/provisioning_intake.py:182-202 | A run in which a failed dispatch and the reconciler together erase a reservation another caller holds. |
| `Ledger.OverReductionClamps` | app/repositories/reseller_repository.py:102 | A run in which a reduction of seats nobody was charged for makes the clamp fire. |
| `JobLease.HandoverNeedsSilence` | app/repositories/job_repository.py:106-128 | Between one owner's claim and any later moment at which another owner holds the job there was a moment when the heartbeat was at least the lease old. |
| `JobLease.SilentMoment` | app/repositories/job_repository.py:116-118 | The silence a takeover relies on really occurred since the last claim. |
| `JobLease.HeldAfterClaim` | app/repositories/job_repository.py:119-126 | Once claimed, a job has an owner until it is settled. |
| `JobLease.HeartbeatDefeatsClaim` | app/repositories/job_repository.py:125-131 | A heartbeat that lands between a claimer's read and its write defeats that write. |
| `JobLease.RecordStep` | app/repositories/job_repository.py:113-126 | A settled record refuses every claim; nothing but a claim counts an attempt. |
| `JobLease.AttemptsAreClaims` | app/repositories/job_repository.py:119-126 | On every run attempts is the number of successful claims, and a settled job is unowned and never claimed again. |
| `JobLease.LeaseProtects` | app/repositories/job_repository.py:104-131 | A claim, and every heartbeat of a job that is held, is worth a whole lease: until then, unless an older heartbeat is written over it, the job stays its owner's or is settled, no other owner's claim goes through, and another owner that looks is refused. |
| `JobLease.FreeJobIsTaken` | app/repositories/job_repository.py:110-126 | A thread that looks at the record as it is goes for the job exactly when that is unsettled and free, its own or silent for a lease, and unless another writer gets ahead takes it with its clock reading as heartbeat. |
| `JobLease.FreshClaimIsBusy` | app/repositories/job_repository.py:113-126 | Right after a claim another owner is told busy exactly until the lease has passed. |
| `JobLease.TryToClaim` | app/repositories/job_repository.py:110-126 | One turn of the loop answers for the record as it stood, at the very write if it claims; it only goes round again if another writer got in between. |
| `JobLease.Claim` | app/repositories/job_repository.py:106-128 | Claims exactly an unsettled record that nobody else was heard of on within the lease, as it stood at the write, with one write of owner, heartbeat and attempts; every other answer has its reason in the record, and busy without a live owner means thirty lost races. |
| `JobLease.MarkSettled` | app/repositories/job_repository.py:133-146 | Settles exactly an unsettled record as it stood at the write, with one write; refuses one that is missing or settled; raises only after thirty lost races. |
| `JobLease.OneSettlement` | app/repositories/job_repository.py:133-135 | If writers leave the flag alone, any two calls that settled the job are the same call with the same result. |
| `Locks.KeepInv` | app/repositories/coordination_repository.py:30-73 | Every step of acquire, renew and release keeps grants and records in line. |
| `Locks.OneLiveHolder` | app/repositories/coordination_repository.py:30-51 | At most one token holds a live lock, and its record is the one stored. |
| `Locks.OnlyOwnerOrExpiry` | app/repositories/coordination_repository.py:59-73 | A stored lock only changes by a grant over nothing or an expired lock, or by its own holder; a holder that was taken over never changes the new holder's record. |
| `Locks.AbsentLockIsTaken` | app/repositories/coordination_repository.py:36-45 | A first write takes the lock exactly when there is no record, with a fresh token, for as long as was asked. |
| `Locks.ExpiredLockIsTaken` | app/repositories/coordination_repository.py:46-51 | A thread that judges the record as it is, with nobody ahead of it, takes the lock exactly when the record has gone or expired. |
| `Locks.OwnLockIsExtended` | app/repositories/coordination_repository.py:59-66 | A renewal that sees the record as it is, with nobody ahead of it, extends it to now plus the time asked for exactly when it is the holder's own. |
| `Locks.ReleaseTakesEffectIff` | app/repositories/coordination_repository.py:68-73 | A release by the holder removes the record if and only if nobody's create, takeover, renewal or release took effect between its read and its delete. |
| `Locks.VersionCounts` | app/repositories/firestore_client.py:364-385 | Along every run the version moves exactly when a write takes effect, and the record only then. |
| `Locks.RenewalLosesRelease` | app/repositories/coordination_repository.py:59-73 | A run in which the holder's own renewal makes its release leave the lock in place. |
| `Locks.StaleReleaseBreaksLock` | app/repositories/firestore_client.py:209-215 | With version counters that restart, a run of three threads in which an overtaken release removes a stranger's live lock. |
| `Locks.StaleTokenFits` | app/repositories/firestore_client.py:209-215 | In the in-memory store the token read before such a history is accepted by the conditional delete after it. |
| `Locks.Acquire` | app/repositories/coordination_repository.py:30-51 | Against arbitrary other writers: grants where at the very write there was no record or one whose expiry had passed; with nobody else writing, refuses only a record whose expiry has not. |
| `Locks.Extend` | app/repositories/coordination_repository.py:59-66 | Renews exactly the caller's own record as it stood at the write; fails only when it is not the caller's or another writer got in between. |
| `Locks.Release` | app/repositories/coordination_repository.py:68-73 | Removes only the caller's own record as it stood at the write; leaves it only if another writer got in between. |
| `Idempotency.ClaimStands` | app/repositories/coordination_repository.py:82-95 | Until it is forgotten a claim is the last word on its key. |
| `Idempotency.OneWinner` | app/repositories/coordination_repository.py:82-102 | At every moment at most one claim stands, the record is it, and two claims of a key only win with a forget of the first in between. |
| `Idempotency.SameResultForAll` | app/repositories/coordination_repository.py:82-95 | Every request answered since the winning claim, with no forget in between, is told the winner's result, and is told that it claimed exactly when that result is its own. |
| `Idempotency.OneClaimant` | app/repositories/coordination_repository.py:82-84 | Two requests told that they claimed since the same winning claim, with no forget in between, are the same request. |
| `Idempotency.WinnerIsTold` | app/repositories/coordination_repository.py:92-93 | For every claim that won some request was told so. |
| `Idempotency.OwnIdWithoutClaim` | app/repositories/coordination_repository.py:94-95 | A refused request is told its own id if and only if nothing is claimed at its read, which needs a forget after its create was refused. |
| `Idempotency.ToldItsOwnId` | app/repositories/coordination_repository.py:94-102 | A run in which that happens. |
| `Idempotency.AbsentKeyIsClaimed` | app/repositories/coordination_repository.py:92-93 | A create claims the key, with the request's own id, exactly when there is no record. |
| `Idempotency.OwnClaimIsForgotten` | app/repositories/coordination_repository.py:97-102 | A forget that nobody gets ahead of removes the record exactly when it is the request's own claim. |
| `Idempotency.Claim` | app/repositories/coordination_repository.py:82-95 | Claims exactly when there is no record; otherwise answers with the record, or with its own id if that has gone. |
| `Idempotency.Forget` | app/repositories/coordination_repository.py:97-102 | Removes only its own claim as it stood at the write; leaves it only if another writer got in between. |
| `Accept.ReleaseAndForget` | app/services/provisioning_intake.py:157-158 | The clean-up leaves neither lock nor claim of its own behind, even if it was overtaken, or stops at the first call that raises. |
| `Accept.ClaimKey` | app/services/provisioning_intake.py:136-142 | With nobody else at the key it is claimed exactly when free; a used key is a conflict only for another request. |
| `Accept.TakeLock` | app/services/provisioning_intake.py:144-152 | With nobody else at the lock it is granted, for 900 seconds, exactly when there is none or it has expired. |
| `Accept.Reserve` | app/services/provisioning_intake.py:154-165 | With nobody else at the counter the seats are reserved exactly when they fit under the cap. |
| `Accept.TryToStore` | app/services/provisioning_intake.py:167-195 | The try block fails exactly at the first raising call; the job holds what the quota still holds, also after the cut. |
| `Accept.StoreOrRollBack` | app/services/provisioning_intake.py:167-202 | Either the job is stored and dispatched, or the seats are given back and lock and key are cleaned up, as far as no clean-up call raises. |
| `Accept.LockAndReserve` | app/services/provisioning_intake.py:145-202 | The same from the lock on: what is left of a call that fails there. |
| `Accept.Run` | app/services/provisioning_intake.py:103-202 | Amid arbitrary other threads: a call that raises without having met a listed failure leaves no job, lock or claim, and on the counter no more than the clamp cut off; one that met a listed failure leaves something, unless others wrote lock or key; each status has exactly its cause; acceptance leaves the job holding exactly the seats taken, cut to the commitment cap exactly on an over-large commitment slot; and with no other thread and no failing call, a request that keeps the plan rules, finds key and lock free and fits is accepted, and one that does not is not. |
| `SeatPlan.ScaleSeats` | app/services/provisioning_service.py:491-524 | Makes exactly the calls of the climb, or those up to the failing one, applied or not, and leaves the seats of the last that reached Google. |
| `SeatPlan.Resize` | app/services/domain_service.py:323-334 | Makes exactly the calls of the step list, or those up to the failing one, applied or not, and leaves the seats of the last that reached Google. |
| `SeatPlan.PlannersAgree` | app/services/domain_service.py:323-334 | For an increase the step list is exactly the sequence of targets of the scaling loop. |
| `SeatPlan.ClimbIsSteady` | app/services/provisioning_service.py:501-522 | Targets strictly increase by at most 100, end at the target, and are as few as the limit allows. |
| `SeatWorkflow.CustomerCreated` | app/adapters/mock/mock_reseller.py:99-135 | Creating a customer leaves one per domain and no domain's seats changed. |
| `SeatWorkflow.SubCreated` | app/adapters/mock/mock_reseller.py:151-209 | Creating a subscription leaves one per customer and SKU, and changes nothing when there was one. |
| `SeatWorkflow.AnswerKeeps` | app/services/provisioning_service.py:403-524 | Every call of an attempt, made once or again after a lost reply, keeps the books; seats grow by at most 100. |
| `SeatWorkflow.CompletedExactly` | app/services/provisioning_service.py:403-489 | However often a job is killed, anywhere, and resumed: completed means exactly the seats asked for, one customer, one subscription for the SKU, and a charge of the seats asked for minus those before the first attempt. |
| `SeatProgress.FailedOnlyFor` | app/services/provisioning_service.py:403-489 | An attempt fails only because a call failed for good or because fewer licences are asked for than the domain had. |
| `SeatProgress.AnsweredAttemptEnds` | app/services/provisioning_service.py:403-524 | Whatever came before: an attempt whose calls are all answered makes at most 10 + ceil(licences/100) of them, can always make the next, and ends completed exactly when the licences asked for are at least the seats there were. |
| `SeatProgress.CanStillComplete` | app/services/provisioning_service.py:403-413 | However often a job was killed, from every moment without a living attempt one more attempt can complete it, with the seats asked for and the exact charge. |
| `SeatProgress.AddsByClimb` | app/services/provisioning_service.py:454-524 | Every call that adds seats asks for the next total of the climb. |
| `SeatWorkflow.SeatsOnlyGrow` | app/services/provisioning_service.py:415-426 | Over any stretch of any run seats never shrink, grow by at most 100 per step, and never pass the target. |
| `SeatWorkflow.GrownIff` | app/services/provisioning_service.py:454-524 | Google has more seats than before the first attempt if and only if some call created the subscription or scaled it below the target, answered or not. |
| `SeatWorkflow.NotedChargeIff` | app/services/provisioning_intake.py:257-324 | The recorded licences, read at any moment of any run, are what Google has added by any later moment if and only if the record had been written or no call has had Google add a seat: a failed attempt, a dead worker and a stalled one alike. |
| `SeatWorkflow.FailedChargeIff` | app/services/provisioning_service.py:221-229 | A job charged from its record is charged what Google has added so far, under the same condition. |
| `SeatWorkflow.FailedJobUncharged` | app/services/provisioning_intake.py:257-266 | A run that fails between the first scaling call and the record: a hundred seats added, none charged. |
| `SeatWorkflow.ReductionRefused` | app/services/provisioning_service.py:442-447 | A request below the seats there are changes nothing and never completes. |
| `SeatWorkflow.OverlappingAttemptsShrink` | app/services/provisioning_service.py:502-522 | Two attempts alive at once can take seats away. |
| `Overlap.AsksByClimb` | app/services/provisioning_service.py:501-522 | Every call asks for the next total of its own attempt's climb, and only an answered one moves the attempt on. |
| `Overlap.ShrinksIff` | app/services/provisioning_service.py:491-524 | With any number of attempts alive and replies lost, a call takes seats away if and only if it lands on a higher call of another attempt, made after its own attempt had begun. |
| `Overlap.LastCall` | app/services/provisioning_service.py:502-522 | The call it lands on is the last one made, and put the seats where they are. |
| `Overlap.TakingTurnsNeverShrinks` | app/services/provisioning_service.py:491-524 | While each attempt calls only until the next begins, seats never go down. |
| `Settlement.NothingMoreAdded` | app/services/provisioning_service.py:403-413 | Once an attempt has completed Google adds nothing more, and its charge is what was added. |
| `Settlement.SettledChargeIff` | app/services/provisioning_intake.py:279-324 | At every moment since a job was settled, by worker or reconciler, and whatever its worker has done meanwhile: it is charged exactly what Google has added by then if and only if the licences had been recorded when the settling thread decided on its charge, or Google has added nothing. |
| `Settlement.AddedIff` | app/services/provisioning_service.py:454-524 | Google has added something exactly when some step of the history created the subscription or scaled it below the target. |
| `Settlement.ChargeStays` | app/repositories/job_repository.py:133-146 | The charge that was settled stays. |
| `Settlement.CompletedWorkerSettlesExactly` | app/services/provisioning_intake.py:253-266 | A worker whose attempt completed decides on exactly what Google has added. |
| `Settlement.RecordedChargeIff` | app/repositories/job_repository.py:133-146 | What mark_settled writes into the record from a charge read there is exact under the same condition. |
| `Settlement.StalledWorkerUncharged` | app/services/provisioning_intake.py:300-324 | A history in which the reconciler settles a stalled job with no charge and the worker then adds a hundred seats. |
| `LicenceChange.ResizeWithRetry` | app/services/domain_service.py:336-344 | The calls of all attempts that reach Google, each attempt from the first step on, lost replies included; completed exactly when the last attempt raises nothing, and then at the target. |
| `LicenceChange.AttemptsSay` | app/core/google_retry.py:113-130 | At most six attempts, another one exactly after one that failed temporarily; each gets its calls through up to the failing one, that included if only its reply was lost. |
| `LicenceChange.IncreaseClimbsIff` | app/services/domain_service.py:323-344 | During an increase the seats never go down if and only if no attempt of which two calls reached Google is followed by one of which a call does. |
| `LicenceChange.RetryShrinks` | app/core/google_retry.py:113-130 | From 10 to 310 seats with one temporary failure: 110, 210, 110, 210, 310. |
| `LicenceChange.LostReplyShrinks` | app/core/google_retry.py:113-130 | From 10 to 310 seats with the last reply lost and a failing retry: 110, 210, 310, 110, 210. |
| `LicenceChange.SmallChangeIsAtomic` | app/services/domain_service.py:325-327 | A reduction, or an increase of at most 100, happens at Google entirely or not at all, and not at all if and only if no attempt reached it. |
| `LicenceChange.SeatsLeft` | app/services/domain_service.py:323-344 | What Google has after all attempts: what it had if no call reached it, otherwise something else, which is the target if and only if the last attempt that reached it went all the way. |
| `LicenceChange.ChangeLicences` | app/services/domain_service.py:128-185 | Amid the partner's other threads: but for what the clamp at zero cuts off, the counter moves by what Google changed if and only if none of the listed failures was met; the clamp cuts off exactly what the amount to be lowered exceeds the counter by at that moment; success means both went all the way; a refusal, which has exactly the plan's limit, the plan's rule or the cap as its cause, touches neither; with nobody else at the counter an increase gets its seats exactly when they fit. |
| `LicenceChange.OverReductionIsCut` | app/services/domain_service.py:179-180 | Nothing fails and they part: ten seats reduced to two with the counter at three. |
| `LicenceChange.GiveBackIsCut` | app/services/domain_service.py:174-177 | Google changes nothing and they part: fifty seats given back with the counter at twenty. |
| `LicenceChange.LostReplyDrifts` | app/services/domain_service.py:171-177 | From 10 to 60 seats with the first reply lost and every retry failing: Google keeps 60, the quota is given back, and the change is reported as failed. |
| `Email.NormalResult` | app/core/security.py:55-72 | Whatever the Unicode decomposition does, a normalised part has only lower-case letters, digits, hyphens and single dots strictly inside. |
| `Email.NormalIsFixed` | app/core/security.py:55-72 | Every such string is left as it is. |
| `Email.NormalizeIsIdempotent` | app/core/security.py:55-72 | Normalising twice is normalising once, for every decomposition that leaves ASCII text alone. |
| `Email.PlainNameForm` | app/core/security.py:55-72 | A name of letters, digits, hyphens and single inner dots or spaces becomes itself with capitals in lower case and spaces as dots. |
| `Email.NumberedIsInjective` | app/core/security.py:113 | Different counters give different addresses. |
| `Email.GenerateCorporateEmail` | app/core/security.py:75-116 | Ends for every set of taken addresses with a free one: first.last@domain, with "user" or "unknown" for an empty part, if free, else the least free number, at most one more than there are addresses. |
| `FailureIndex.FailureTable` | app/repositories/job_repository.py:76-90 | The flag decides where there is one; without it a failure is a completed job of a stored request with no user created or existing. |
| `FailureIndex.SortSorts` | app/repositories/job_repository.py:102 | Newest first, and a permutation. |
| `FailureIndex.MissedFailure` | app/repositories/job_repository.py:97-101 | A failed job that neither query returns. |
| `FailureIndex.ListAdminFailures` | app/repositories/job_repository.py:76-102 | Every failure the queries can see, once, newest first; it agrees with a full scan if and only if the queried field is stored wherever the scan would rely on its default. |
| `Usage.PostingsSaySheet` | app/services/licence_usage.py:56-77 | The amounts handed to add come to exactly what the jobs and audit entries of the window say in their own fields, for every figure, Indian calendar day and partner. |
| `Usage.PostKeepsTallies` | app/services/licence_usage.py:50-54 | After any amount is added, every day, every partner and both totals are what the amounts add up to. |
| `Usage.Tally` | app/services/licence_usage.py:56-77 | The loops over jobs and audit entries leave exactly the sums of what counts, by day and by partner. |
| `Usage.NewestFirst` | app/services/licence_usage.py:82-90 | Every day once, newest first, and totals that are the sum of the rows. |
| `Usage.NetsAgree` | app/services/licence_usage.py:79-80 | The net change of the totals is the sum of the net changes of the parts. |
| `Usage.ByNetKeeps` | app/services/licence_usage.py:100-101 | Sorting by net change puts the largest first and keeps every bucket, once. |
| `Usage.LicenceUsage` | app/services/licence_usage.py:33-102 | 1 to 365 days, every day once, newest first; every row, every partner and the total are what the records of that day, partner or window say; for every field and for the net change the days, the partners and the total add up to the same; net change is what was added less what was removed and released; partners with the largest net change first. |
| `Usage.FilterAgreesIff` | app/services/licence_usage.py:47-78 | What the filtered postings of one partner sum to is what the unfiltered ones sum to in its bucket if and only if the partner is not called "(none)" or nothing was counted without a partner. |
| `Usage.FilteredReportIff` | app/services/licence_usage.py:33-102 | The same of two reports: the totals of the filtered one are that partner's entry in the unfiltered one, under exactly that condition. |
| `Usage.NoneReportMisses` | app/services/licence_usage.py:47-58 | A report for "(none)" that misses a failed job of that bucket. |

## Left out

- HTTP routes, tokens and cookies, rate limiting, dashboards and the Google, Gmail and Firestore HTTP adapters: I/O.
- Cloud Tasks and thread pools: a job may be run any number of times by any worker, so dispatch is only a step.
- Waiting and backoff of retries; which errors are temporary is an input (`LicenceChange.Failure`), and in the seat
  workflow a call is made again any number of times.
- `DomainService._delete` in the ledger: it returns every seat Google has, charged or not, so conservation does not
  cover it. Its clamp is the one of `Ledger.OverReductionClamps`.
- A licence change that fails partway is not a step of the ledger; `LicenceChange.ChangeLicences` says when it drifts.
- The legacy provisioning path and `_ensure_subscription`: no quota, lock or lease.
- Audit writes, logging, e-mail texts, employee records, `batch_status`, suspend and activate, plan statistics.
- Validation of requests: they arrive well-formed. The fingerprint comparison of a repeated key is an input of `Accept`.
- Aliasing: `InMemoryStore.get` hands out the stored dictionary itself, and `update` changes it in place; documents here are values. `clear`, `query` operators other than equality and the paging of `list_all` are not modelled.
- The `BaseException` branches of `_drain` and `_process`, and the timeout of `update_document`.
- Settlement and reconciliation interleave as steps of `Ledger`; only `accept` is also a method amid other threads.
- The seat workflow is a state machine on values; `_scale_seats` is also a method on one subscription.
- Accept.Run: slot counter, job store and dispatcher are inputs, whose own behaviour is in `PlanSlots` and `Ledger`; the result for a repeated key is not looked up, the call is only known to change nothing.
- Quota.AdjustOpAdjusts: the update replaces a dictionary value instead of changing the caller's private copy in place.
- Text.ParseIntOfText: the interpreter's limit on the length of decimal text (4300 digits by default) is not modelled.
- Codec.RoundTrip: a float is passed on as it is, so its JSON text and the rounding of that text are not covered.
- Email.GenerateCorporateEmail: Unicode decomposition and the lower-casing of the domain are parameters; the address is lower-cased on both sides of the "@" separately.
- FailureIndex.ListAdminFailures: both queries see the same snapshot of the jobs, with one document per job id.
- Idempotency.Claim: the record is its result id; scope, fingerprint and creation time are not kept.
- JobLease.Claim: the record keeps owner, heartbeat, attempts, settled and licences added; all other fields of the job are untouched by the modelled calls.
- Usage.LicenceUsage: times are minutes since the epoch.
