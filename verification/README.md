# CityCare backend: its protocols, verified

CityCare is the backend of a city's citizen services: citizens file complaints that officers
resolve, pay for municipal services, and sign in with a second factor; administrators assign
work, approve refunds, hand out roles and export the books. Its hard logic sits in a few
protocols over rows that several requests and jobs change at once. This project models those
protocols and proves what every run of them keeps.

| file | what it holds |
|---|---|
| `Base.dfy`, `Sets.dfy` | shared types, and sizes of sets |
| `Complaints.dfy`, `ComplaintRuns.dfy`, `ComplaintService.dfy`, `ComplaintExamples.dfy` | the complaint lifecycle: table, steps, run theorems, the service class, runs that show what can go wrong |
| `ComplaintAnswers.dfy`, `ComplaintTrace.dfy` | which complaint requests are let through, and where everything on a row came from |
| `ReopenLimit.dfy` | how far `reopen` can be taken with several calls in flight |
| `OfficerLoad.dfy` | auto-assignment and the balance of open loads |
| `Sla.dfy` | the hourly escalation check |
| `Payments.dfy`, `PaymentRuns.dfy`, `PaymentService.dfy` | payments, service requests, refunds |
| `PaymentTrace.dfy` | where each payment, success, refund, audit row and receipt came from, and the money told by the events |
| `Ledger.dfy` | totals per status and the fold by service type |
| `Sessions.dfy`, `SessionRuns.dfy`, `SessionService.dfy` | sessions and rotated refresh tokens (the pattern of section 4.14.2 of RFC 9700) |
| `SessionTrace.dfy` | which request opened a session, and which ended it or a token |
| `LoginChallenge.dfy`, `ChallengeRuns.dfy`, `ChallengeService.dfy` | sign-in and the two-door login challenge |
| `LoginLockout.dfy`, `LoginTrace.dfy` | what the counters of wrong passwords let through, what they count, and what every session rests on |
| `ChallengeTrace.dfy` | the story of a challenge, told by requests and answers |
| `Csv.dfy`, `Export.dfy` | the CSV writer with a parser for section 2 of RFC 4180, and the paged exports |
| `Permissions.dfy`, `PermissionChanges.dfy`, `PermissionRuns.dfy`, `PermissionService.dfy` | access roles, what each write to them changes, and the read-through permission cache |

Each protocol has the same three layers. The first module defines the tables and one pure step
function per request, callback, job or key expiry; a run is any sequence of steps. The second
proves the invariants of all runs and the theorems that follow. The third is a class that holds
the tables in fields and updates them in place, statement by statement as the service does; each
request method says that the new tables and the answer are those of the step, and keeps `Valid()`,
the invariant of the second layer, so the theorems hold of the objects too. Beside them stand the
traces: they say of what the tables hold after a run which events put it there and what those events
found and said, so that nothing is true of the tables only because one branch wrote both sides of it.

A request that reads a row and writes it later is two steps with a ticket in between (`changeStatus`,
`feedback`, auto-close, the SLA turns, `confirm`, a password sign-in, the permission lookup), and
`reopen` is three. A run is any interleaving of any number of such requests, each acting on what it
read earlier.

Assumptions.

- Identifiers, tokens and links are fresh and their hashes injective; access tokens cannot be forged.
- A database transaction is one step. The clock is an argument; only the SLA theorems need it not to
  go back. Redis is reliable, except that any key may expire at any moment.
- The gateway never both refuses a session and validates its transaction, in whichever order the two
  answers reach the backend (`Payments.Honest`).
- One step each, although the code reads and writes in turn: the duplicate check and the insert of
  `create`, the count and the insert of `addAttachment`, `assign`, `softDelete`, `updateStatus` of a
  service request, `requestRefund`, `approveRefund`, `refresh`, the code, link, resend and 2FA
  endpoints of a challenge, and every RBAC write. For the two whose write ignores the status that was
  read, what follows when another write gets in between is stated exactly (`StaleAssign`,
  `UnguardedStatusWrite`, `UnguardedStatusMove`). What is said of the use of a challenge and of
  its wrong codes (`UsedAtMostOnce`, `OneUse`, `CodeAnswers`, `FailedChecksBounded`) rests on the
  challenge endpoints being one step: the code writes a challenge with a wrong attempt back some time
  after it has read it.

Results worth knowing before changing the code. Where a property fails, a lemma says exactly when it
holds, and a run shows that the failing case is reached.

- The write in `assign` is not guarded by the status that was read: the history stays a path if and
  only if the status is still that one (`StaleAssign`, `StaleAssignReached`). The write of a service
  request's status is not either: it keeps the books if and only if the request is still paid for
  (`UnguardedStatusWrite`, `StaleStatusWriteReached`), and moves the request along an edge besides if
  and only if it changes nothing or would be allowed from there (`UnguardedStatusMove`,
  `OffTheEdgesReached`).
- `PATCH /:id/status` reaches REOPENED without the two checks of `reopen` (`ReopenAddsTwoChecks`,
  `PlainRouteIgnoresLimit`), and by it alone a complaint gets to any reopen count
  (`EveryCountIsReached`). When every reopening goes through `reopen`, with at most n of a complaint in
  flight at once, a limit of k lets through at most k - 1 + n (`ReopensBounded`); one at a time keep the
  limit (`OneAtATimeRespectsLimit`), and for every n and k some run has that many (`LimitIsPassed`).
- The query behind auto-assignment counts soft-deleted complaints as load: it groups, and the
  soft-delete filter does not cover grouped queries. The load compared is the real one if and only if
  no open complaint of the officer is deleted (`LoadIsLive`); otherwise the officer with less to do
  may be passed over (`DeletedComplaintsMislead`).
- The comment on `net` in `payment.service.ts` (lines 627-628) calls it what the city is holding. The
  SUCCESS total alone is that (`SuccessTotalIsMoneyHeld`); `net` is short of it by what was refunded,
  and right if and only if nothing is refunded (`NetIsMoneyHeld`, `NetFails`).
- The FAILED write after a refused gateway session does not look at the status: it is harmless if and
  only if the payment has not settled (`UnguardedFailure`), and a gateway that breaks its word makes it
  land on one that has (`UnguardedFailureReached`).
- `logout` matches the session by owner but the tokens by session alone. For an arbitrary pair
  `LogoutNeedsTheOwner` says exactly when both stay in step; callers pass a pair from a signed token,
  so no run reaches the other case.
- Changing an account type does not drop the user's cached permissions (`AccountTypeChangeStaleness`,
  `StaleAnswerReached`), and an RBAC write that lands between a miss and its write-back drops the key
  too early (`LateWriteBack`, `LateWriteBackReached`). Step by step, the cache stays right if and only
  if the join rows say beforehand that nobody in question is affected (`WhatAWriteChanges`,
  `StepExact`, `CalmIsExact`).
- The in-use and built-in guards of `deleteRole` are what keeps the deletion from changing anyone's
  permissions, so that even a lookup in flight stays right.
- Whether an officer may move a complaint is asked when the row is read, and the write does not ask
  again. Once a complaint is with another, the former officer's requests are refused
  (`FormerOfficerShutOut`), but one already under way lands if the status still is the one it read
  (`WriteAnswers`, `FormerOfficerLands`).
- The counters of wrong passwords are read before the password is compared and written after. With n
  sign-ins of an address in flight at once the count gets to at most 4 + n, five one at a time
  (`WrongPasswordsBounded`, `BoundIsMet`). The lock of an hour, which takes ten, can be announced if
  and only if six can be in flight (`HourNeedsSix`).

## Model

| member | source | states |
|---|---|---|
| `ComplaintRuns.EveryRun` | src/modules/complaint/complaint.service.ts:476-607 | for every interleaving of stale status changes, feedback, auto-close, assignments, attachments, deletions and restores: each history is a path of listed edges from SUBMITTED to the current status, each row written by someone the edge allows (owner, assigned officer, admin, or the job for RESOLVED to CLOSED); the stamps, the officer, the proof, the open assignment row and the exact row count agree with the status |
| `ComplaintRuns.StepKeeps` | src/modules/complaint/complaint.service.ts:553-607 | every single step keeps that invariant and takes nothing away: histories and attachments only grow, an officer is never unset, a rating never withdrawn |
| `ComplaintRuns.MoveKeepsRow` | src/modules/complaint/complaint.service.ts:563-587 | the update and history row of one guarded status change keep all six row invariants: path, authorship, stamps, officer and proof, open assignment, accounting |
| `ComplaintRuns.EdgeRank` | src/modules/complaint/complaint.constants.ts:7-26 | along every listed edge the rank (SUBMITTED 1 to CLOSED 6) rises by one, or falls by three into REOPENED: what the accounting of history rows rests on |
| `ComplaintRuns.AssignKeepsRow` | src/modules/complaint/complaint.service.ts:670-707 | an assignment over the status it read keeps the row invariant: one open assignment row naming the officer, and a history row exactly when the status changes |
| `ComplaintRuns.StaleAssign` | src/modules/complaint/complaint.service.ts:670-707 | written over a row that has moved on, the assignment keeps the history a path if and only if the status is still the one read |
| `ComplaintExamples.StaleAssignReached` | src/modules/complaint/complaint.service.ts:670-707 | some run takes a complaint from UNDER_REVIEW, which the assignment reads, to REJECTED, over which it writes: the history is then no path |
| `ComplaintRuns.AssignmentsAfterAssign` | src/modules/complaint/complaint.service.ts:678-695 | whatever was read, an assignment leaves exactly one open assignment row, naming the officer set on the complaint |
| `ComplaintRuns.HistoryBound` | src/modules/complaint/complaint.service.ts:563-587 | the history is append-only in any continuation, and with k reopenings holds at most 6+4k rows |
| `ComplaintRuns.LostUpdateNeedsReopening` | src/modules/complaint/complaint.service.ts:470-475 | the optimistic lock: if the status read is there again later, either nothing was written or the complaint went round by reopenings, four history rows for each |
| `ComplaintRuns.OneWinner` | src/modules/complaint/complaint.service.ts:562-577 | of two requests that read one row in one status, the first write moves it and the second gets the conflict |
| `ComplaintRuns.ReopenAddsTwoChecks` | src/modules/complaint/complaint.service.ts:612-637 | in a reachable state `reopen`, its two readings of the row together, is let through if and only if the plain change to REOPENED is, the count is below the limit and the window is open |
| `ComplaintRuns.PlainRouteIgnoresLimit` | src/modules/complaint/complaint.service.ts:476-531 | the owner of any resolved complaint can reopen it by the plain status change, whatever its count |
| `ComplaintExamples.EveryCountIsReached` | src/modules/complaint/complaint.service.ts:476-531 | for every k some run from the empty table without a call of `reopen` leaves a complaint RESOLVED with k reopenings, so no limit binds the plain status change |
| `ReopenLimit.ReopensBounded` | src/modules/complaint/complaint.service.ts:612-637 | in every interleaving whose reopenings all go through `reopen`, each with a limit of at most k, and with at most n of a complaint in flight at once, it is reopened at most k-1+n times and has at most 6+4(k-1+n) history rows |
| `ReopenLimit.OneAtATimeRespectsLimit` | src/modules/complaint/complaint.service.ts:612-637 | one reopening of a complaint at a time: at most k of them, and at most 6+4k history rows |
| `ComplaintExamples.LimitIsPassed` | src/modules/complaint/complaint.service.ts:612-637 | for every n and k at least 1 some such run has k-1+n reopenings, every one let through |
| `ComplaintTrace.EveryMoveWasAsked` | src/modules/complaint/complaint.service.ts:476-607 | every history row but the first was asked for earlier in the run by the one it names, on the status it leaves, while the complaint was live: by the owner, by the officer in charge at that moment, by an admin, or by the job more than seven days after the resolution; with the note and the proof where due |
| `ComplaintTrace.EveryReopenWasCalled` | src/modules/complaint/complaint.service.ts:612-636 | the status change of a `reopen` follows a call by the owner that was below its limit and inside its window |
| `ComplaintTrace.StampsAreMoments` | src/modules/complaint/complaint.service.ts:563-571 | `createdAt`, `resolvedAt` and `closedAt` are the times of the events by which the complaint last came into SUBMITTED, RESOLVED and CLOSED; `resolvedAt` is empty unless RESOLVED or CLOSED, `closedAt` unless CLOSED |
| `ComplaintTrace.EveryComplaintWasFiled` | src/modules/complaint/complaint.service.ts:121-178 | each row was filed by its citizen when category and ward existed and nothing like it from the last 24 hours was open, and is due the category's time after the filing |
| `ComplaintTrace.EveryAssignmentWasGiven` | src/modules/complaint/complaint.service.ts:643-695 | each assignment row was written by an admin's assignment to an active officer of the department, the one named or the one picked, and ends at the moment of the next |
| `ComplaintTrace.RatedOnce` | src/modules/complaint/complaint.service.ts:885-904 | over a whole run, however many requests ask at once, a complaint is rated as often as its flag says: once or never |
| `ComplaintTrace.EveryFileWasAdded` | src/modules/complaint/complaint.service.ts:759-797 | a complaint never has more than five files, each of a kind the adder might add at that moment |
| `ComplaintAnswers.ChangeAnswers` | src/modules/complaint/complaint.service.ts:483-523 | a status change is let through if and only if the row is live, edge and role are listed, a citizen owns it, an officer is the one it is with, REJECTED has its note and RESOLVED its proof; NOT_FOUND and NOT_OWNER are answered exactly where they belong, and a refusal changes nothing |
| `ComplaintAnswers.FormerOfficerShutOut` | src/modules/complaint/complaint.service.ts:502-506 | once a complaint is with another, in every continuation in which it is not given back, the former officer's status changes and proofs are refused |
| `ComplaintAnswers.WriteAnswers` | src/modules/complaint/complaint.service.ts:562-587 | the guarded write goes through if and only if the row is live and in the status read, whoever it is with; it then moves that row alone |
| `ComplaintExamples.FormerOfficerLands` | src/modules/complaint/complaint.service.ts:502-577 | some run writes an officer's change when the complaint is with another already |
| `ComplaintAnswers.CreateAnswers` | src/modules/complaint/complaint.service.ts:121-159 | a complaint is filed if and only if category and ward exist and the citizen has no live open one of the same kind from the last 24 hours |
| `ComplaintAnswers.FeedbackAnswers` | src/modules/complaint/complaint.service.ts:885-900 | a rating is let through if and only if it comes from the owner of a live, resolved or closed, unrated complaint |
| `ComplaintAnswers.FeedbackCloses` | src/modules/complaint/complaint.service.ts:902-915 | rating a resolved complaint stores the rating and closes it in the owner's name at that time; rating a closed one stores the rating alone |
| `ComplaintAnswers.AutoCloseAnswers` | src/jobs/slaChecker.ts:121-126 | the job takes up a complaint if and only if it is live, unrated and has been resolved for more than seven days |
| `ComplaintAnswers.AttachAnswers` | src/modules/complaint/complaint.service.ts:765-786 | a file is added if and only if there are fewer than five and it is the owner's evidence, the proof of the officer in charge, or an admin's |
| `ComplaintAnswers.AssignAnswers` | src/modules/complaint/complaint.service.ts:643-671 | an assignment goes through if and only if an admin makes it for a live complaint and the officer asked for, or any when picked, is active in the department |
| `ComplaintAnswers.OpenHasWayOut` | src/modules/complaint/complaint.constants.ts:7-35 | the statuses counted as open are those with an edge out, but for RESOLVED |
| `ComplaintAnswers.RestoreUndoesDelete` | src/modules/admin/admin.service.ts:342-383 | restoring a deleted complaint gives back exactly the row that was deleted |
| `ComplaintService.Service.CreateComplaint` | src/modules/complaint/complaint.service.ts:121-199 | filing: the category and ward checks, the 24-hour duplicate rule, and the new row with its first history row, due date and nothing else changed |
| `ComplaintService.Service.ReadForChange` | src/modules/complaint/complaint.service.ts:483-523 | the checks of a status change in their order: it is let through if and only if the row is live and the actor may move it now, and leaves its ticket; no row is touched |
| `ComplaintService.Service.ApplyStatusChange` | src/modules/complaint/complaint.service.ts:553-607 | the guarded write: the row moves, with stamps, reopen count and history row, only if live and still in the status read; otherwise a conflict and nothing written |
| `ComplaintService.Service.CheckReopen` | src/modules/complaint/complaint.service.ts:612-634 | ownership, limit and window, each with its own refusal, on a first reading of the row |
| `ComplaintService.Service.ReadForReopen` | src/modules/complaint/complaint.service.ts:636 | the status change it asks for reads the row again and makes its own checks, and leaves the write to do or gives up |
| `ComplaintService.Service.ReadForFeedback` | src/modules/complaint/complaint.service.ts:885-900 | who may rate, in which statuses, and once |
| `ComplaintService.Service.InsertFeedback` | src/modules/complaint/complaint.service.ts:902-915 | the rating is stored unless one is there, and a complaint read as RESOLVED is left with the closing write to do |
| `ComplaintService.Service.AssignOfficer` | src/modules/complaint/complaint.service.ts:643-729 | the target or its error (no candidate, inactive, other department) and the whole transaction: closed and new assignment rows, officer, status, history |
| `ComplaintService.Service.AddAttachment` | src/modules/complaint/complaint.service.ts:759-797 | the kind a file is taken for, who may add it, the limit of five, and the appended row |
| `ComplaintService.Service.SoftDelete` | src/modules/complaint/complaint.service.ts:451-467 | a live complaint gets its deletion stamp and nothing else; a deleted one is not found |
| `ComplaintService.Service.RestoreDeleted` | src/modules/admin/admin.service.ts:342-383 | a deleted complaint gets its stamp taken away and nothing else |
| `ComplaintService.Service.ReadStale` | src/jobs/slaChecker.ts:121-130 | the job's query for one complaint: RESOLVED, unrated, live and over a week old |
| `ComplaintService.Service.AutoCloseResolved` | src/jobs/slaChecker.ts:121-147 | over a batch fetched earlier: a row is closed at the clock reading of its turn if and only if it is still live and RESOLVED, every other row is untouched, and the answer is the number closed |
| `OfficerLoad.PickIsFirstMinimum` | src/modules/complaint/complaint.service.ts:732-753 | the officer picked is the first in the list whose open load is the minimum |
| `OfficerLoad.LoadIsLive` | src/modules/complaint/complaint.service.ts:743-749 | the load compared equals the officer's live open complaints if and only if none of the officer's open complaints is deleted |
| `OfficerLoad.PickIsLiveMinimum` | src/modules/complaint/complaint.service.ts:731-753 | where that holds of every candidate, the pick is the first of least live load |
| `ComplaintExamples.DeletedComplaintsMislead` | src/modules/complaint/complaint.service.ts:743-752 | some run ends with an officer who has nothing live to do passed over for one who has |
| `OfficerLoad.AutoAssignLoads` | src/modules/complaint/complaint.service.ts:643-706 | auto-assigning a waiting complaint adds one to the load of the officer picked, to no other load, and changes no other complaint |
| `OfficerLoad.AutoAssignSpread` | src/modules/complaint/complaint.service.ts:650-675 | it never raises the spread of loads above the larger of its old value and one |
| `OfficerLoad.FairShare` | src/modules/complaint/complaint.service.ts:732-753 | from zero loads, n auto-assignments over k officers leave every load at n/k rounded down or up |
| `Sla.Checker.RunSlaCheck` | src/jobs/slaChecker.ts:52-109 | over a batch read earlier, while other checks may have recorded levels: each complaint has the level its hours past the due date call for (24 for the second, 96 for the third), nothing is recorded twice, and the answer is how many were recorded |
| `Sla.TurnIsEscalated` | src/jobs/slaChecker.ts:54-72 | however old the snapshot a turn is judged by, it does what it would do on the row as it is |
| `Sla.CheckReachesLevel` | src/jobs/slaChecker.ts:17-66 | after a check the last level of every complaint of the batch is the third if 96 hours have passed since `slaDueAt` at its turn, the second if 24 have, else the first, and only then |
| `Sla.CheckIsIdempotent` | src/jobs/slaChecker.ts:54-57 | the same batch checked again at the same readings changes nothing |
| `Sla.CheckRowsAt` | src/jobs/slaChecker.ts:54-72 | a complaint of the batch is escalated once, at its own reading; any other row is untouched |
| `Sla.EveryTickRun` | src/jobs/slaChecker.ts:11-109 | over any number of checks with their turns mixed with each other and with complaint requests, and a clock that does not go back: levels strictly increase, there are at most three, `isEscalated` holds if and only if there is one, and the complaint invariant stands |
| `Sla.TurnReachesLevel` | src/jobs/slaChecker.ts:54-89 | in every such run, whatever happened since it was fetched, the last level after a turn is the third if and only if 96 hours have passed since `slaDueAt`, at least the second if and only if 24 have, and no other row changes |
| `Sla.EveryEscalationWasDue` | src/jobs/slaChecker.ts:31-44 | no complaint is escalated in any run that no check had fetched while it was live, in an open status and past its due date |
| `Sla.CheckCounts` | src/jobs/slaChecker.ts:50-87 | the number a check answers is the number of escalation rows it has added |
| `PaymentRuns.EveryRun` | src/modules/payment/payment.service.ts:154-282 | for every interleaving with an honest gateway: one success audit row and one notification for a payment that ever succeeded and none otherwise, at most one receipt; a request is PAID, PROCESSING, COMPLETED or REJECTED if and only if exactly one of its payments is SUCCESS, PENDING_PAYMENT if and only if none is SUCCESS or REFUNDED; refunds sit on paid payments with equal amounts and PROCESSED means REFUNDED; money taken less money returned is the sum of SUCCESS amounts |
| `PaymentRuns.StepKeeps` | src/modules/payment/payment.service.ts:194-234 | each step keeps that invariant and moves each payment only forward |
| `PaymentRuns.PaymentLife` | src/modules/payment/payment.service.ts:194-281 | in any continuation a payment keeps its amount whatever happens to the fee, leaves PENDING at most once, never succeeds after FAILED or CANCELLED, and has as many audit rows and notifications as successes |
| `PaymentRuns.OneCommitWins` | src/modules/payment/payment.service.ts:194-237 | of two workers with a good validation for one payment, one books it and the other finds it done and changes nothing |
| `PaymentRuns.CommitLandsOnUnpaid` | src/modules/payment/payment.service.ts:207-210 | with the one-SUCCESS index, the unguarded PAID of a commit lands only on a request that is unpaid or cancelled |
| `PaymentRuns.RefundLandsOnPaid` | src/modules/payment/payment.service.ts:488-492 | the unguarded CANCELLED of an approved refund lands only on a request that is paid for |
| `PaymentRuns.RequestsMoveAlongEdges` | src/modules/serviceRequest/serviceRequest.service.ts:143-195 | every step of any kind leaves a request where it is or moves it along one listed edge |
| `PaymentRuns.UnguardedFailure` | src/modules/payment/payment.service.ts:102-107 | the FAILED write after a refused session keeps the books if and only if the payment has not settled |
| `PaymentRuns.UnguardedFailureReached` | src/modules/payment/payment.service.ts:102-107 | a gateway that refuses a session after validating its transaction, up to then honest, makes the write land on a SUCCESS payment |
| `PaymentRuns.UnguardedStatusWrite` | src/modules/serviceRequest/serviceRequest.service.ts:166-170 | the unguarded status write keeps the invariant if and only if the request is still paid for |
| `PaymentRuns.UnguardedStatusMove` | src/modules/serviceRequest/serviceRequest.service.ts:151-170 | it also moves the request along an edge if and only if it changes nothing or is allowed from the status that is there |
| `PaymentRuns.StaleStatusWriteReached` | src/modules/serviceRequest/serviceRequest.service.ts:149-170 | some honest run takes a request from PAID, which the admin's request reads, to CANCELLED by a refund, over which it writes |
| `PaymentRuns.OffTheEdgesReached` | src/modules/serviceRequest/serviceRequest.service.ts:149-170 | two admins read PROCESSING, one completes the request, and the other's rejection would be written over COMPLETED |
| `PaymentTrace.EverySuccessWasConfirmed` | src/modules/payment/payment.service.ts:154-205 | in every run each payment that ever succeeded was committed from PENDING by a worker to whom the gateway had said, with a good status, its own transaction, amount and currency; bank reference and time are those of that reply and commit |
| `PaymentTrace.OnlyConfirmationsCount` | src/modules/payment/payment.service.ts:172-192 | a worker that asked goes on if and only if the reply has status VALID or VALIDATED and the transaction, amount and currency of the payment row; any other reply is refused and the ticket dropped |
| `PaymentTrace.EveryRefundWasAccepted` | src/modules/payment/payment.service.ts:433-492 | in every run each REFUNDED payment was a success with a refund asked for and a bank reference, in the step in which the gateway accepted; the approver is the one who took it |
| `PaymentTrace.RefusedRefund` | src/modules/payment/payment.service.ts:471-475 | a refund the gateway does not accept is refused and changes nothing |
| `PaymentTrace.AcceptedRefund` | src/modules/payment/payment.service.ts:439-457 | an accepted one goes through if and only if the refund is REQUESTED and the bank reference known |
| `PaymentTrace.EveryRefundWasAsked` | src/modules/payment/payment.service.ts:397-417 | each refund was asked for once, of a success, by the admin it names |
| `PaymentTrace.EveryPaymentWasStarted` | src/modules/payment/payment.service.ts:48-75 | each payment was started by the owner of a request no payment had ever paid, in BDT, for the fee of that moment |
| `PaymentTrace.WhoMayPay` | src/modules/payment/payment.service.ts:51-62 | a payment can be started if and only if the request is one's own, no payment of it has ever succeeded and its fee is positive; ALREADY_PAID is answered exactly where one has |
| `PaymentTrace.ReceivedIsTakenIn` | src/modules/payment/payment.service.ts:179-205 | the money taken is what the gateway said in the replies by which payments turned into successes |
| `PaymentTrace.ReturnedIsGivenBack` | src/modules/payment/payment.service.ts:459-492 | the money returned is the refunds the gateway was asked for and accepted, read off the events |
| `PaymentTrace.EveryPaper` | src/modules/payment/payment.service.ts:109-124 | one audit row for each opened session, each refund asked for and each refund made, one notification for the last, and none otherwise |
| `PaymentTrace.EveryReceipt` | src/modules/payment/payment.service.ts:236-267 | each payment that succeeded has its one receipt sent, still due, or lost with a process |
| `PaymentTrace.CallbackMoves` | src/modules/payment/payment.service.ts:273-282 | a fail or cancel callback moves the payment if and only if it is PENDING, and nothing else |
| `PaymentTrace.AdminMoves` | src/modules/serviceRequest/serviceRequest.service.ts:143-170 | an admin moves a request along PAID to PROCESSING to COMPLETED or from either to REJECTED, and no other way |
| `PaymentService.Service.CreateServiceRequest` | src/modules/serviceRequest/serviceRequest.service.ts:35-70 | a request for a known service type starts at PENDING_PAYMENT |
| `PaymentService.Service.InitiatePayment` | src/modules/payment/payment.service.ts:48-75 | only the owner of an unpaid request starts a payment, with the fee of that moment as its amount |
| `PaymentService.Service.FinishInitiate` | src/modules/payment/payment.service.ts:77-126 | a refused session fails the payment, an opened one is audited |
| `PaymentService.Service.FindPayment` | src/modules/payment/payment.service.ts:154-168 | unknown, already successful, or a ticket with the amount and currency read |
| `PaymentService.Service.CheckValidation` | src/modules/payment/payment.service.ts:172-192 | a worker that asked goes on if and only if the gateway confirms the payment with a good status and its own transaction, amount and currency |
| `PaymentService.Service.CommitConfirm` | src/modules/payment/payment.service.ts:194-237 | all of the transaction or nothing: only a PENDING payment of a request without a SUCCESS one is settled |
| `PaymentService.Service.SendReceipt` | src/modules/payment/payment.service.ts:241-267 | a receipt is sent only for a commit that left one due |
| `PaymentService.Service.Mark` | src/modules/payment/payment.service.ts:273-282 | a fail or cancel callback moves a PENDING payment and no other |
| `PaymentService.Service.UpdateRequestStatus` | src/modules/serviceRequest/serviceRequest.service.ts:143-195 | the four moves an admin may make and the refusal of any other |
| `PaymentService.Service.AskRefund` | src/modules/payment/payment.service.ts:397-431 | one refund per SUCCESS payment, for its amount |
| `PaymentService.Service.ApproveAskedRefund` | src/modules/payment/payment.service.ts:433-513 | unless the gateway accepts nothing changes; when it does, refund, payment and request change together if and only if the refund is REQUESTED and the bank reference known |
| `Ledger.StatusesPartition` | src/modules/payment/payment.service.ts:609-616 | the five status totals add up to the whole of the filtered books, in count and in amount |
| `Ledger.SuccessTotalIsMoneyHeld` | src/modules/payment/payment.service.ts:670-732 | after every run the SUCCESS total is what the gateway said it took in the committed replies less the refunds it accepted, both read off the events, and the REFUNDED total is the latter |
| `Ledger.NetIsMoneyHeld` | src/modules/payment/payment.service.ts:730-732 | after every run `net` is the money held less what was returned, and is the money held if and only if no payment is refunded |
| `Ledger.NetFails` | src/modules/payment/payment.service.ts:730-732 | one payment taken and given back: nothing is held and `net` is negative |
| `Ledger.ByServiceType` | src/modules/payment/payment.service.ts:709-721 | the loop over grouped rows makes an entry for exactly the types with a SUCCESS payment, each with its direct count and sum, in an order without repetition, and the entries add up to the resolved payments |
| `Ledger.EntriesAddUpToCollected` | src/modules/payment/payment.service.ts:698-721 | the entries add up to `collected` if and only if every collected payment's request resolves to a type |
| `SessionRuns.EveryRun` | src/modules/auth/auth.service.ts:175-225 | after every run the tokens of a session are one chain of replacement links in issue order, all but the end revoked, and the unrevoked ones are the end alone while the session is unrevoked and none after |
| `SessionRuns.WhoMayRefresh` | src/modules/auth/auth.service.ts:677-709 | a token is exchanged if and only if it is the one unrevoked token of its session, neither has expired, and its user exists and is not blocked |
| `SessionRuns.RefreshMovesTheEnd` | src/modules/auth/auth.service.ts:711-735 | a rotation appends one token to the chain, which becomes the only live one, for the same user, and expires with the session |
| `SessionRuns.ReuseShutsOut` | src/modules/auth/auth.service.ts:690-697 | a revoked token is never exchanged; presenting it leaves its owner no unrevoked session or token and touches no one else's |
| `SessionRuns.ReuseIsFinal` | src/modules/auth/auth.service.ts:690-697 | after a detected reuse, in every continuation, no token the user had before is ever exchanged |
| `SessionRuns.ExchangedOnce` | src/modules/auth/auth.service.ts:718-735 | a token exchanged once is a reuse in every continuation |
| `SessionRuns.RotationNeverExtends` | src/modules/auth/auth.service.ts:699-724 | no number of rotations makes a refresh succeed after the expiry the session was opened with |
| `SessionRuns.RevokedCountsTokens` | src/modules/auth/auth.service.ts:101-120 | `revokeAllSessions` leaves the user nothing, touches no one else, and the number it returns is also the number of tokens it revoked |
| `SessionRuns.LogoutNeedsTheOwner` | src/modules/auth/auth.service.ts:754-763 | for any pair of user and session, `logout` keeps tokens and session in step if and only if the user owns the session or there is no unrevoked session to miss |
| `SessionRuns.SignOutEnds` | src/modules/auth/auth.service.ts:740-867 | after either sign-out route or a single revocation, in every continuation, the session stays revoked, has no live token, and none of its tokens refreshes |
| `SessionRuns.StepKeeps` | src/modules/auth/auth.service.ts:677-867 | every endpoint keeps the chain and the coupling of tokens with sessions |
| `SessionTrace.EverySessionWasOpened` | src/modules/auth/auth.service.ts:175-207 | each session of any run was opened for its user and expires eight hours later if the account was a super admin's at that moment, else seven days |
| `SessionTrace.EveryTokenExpires` | src/modules/auth/auth.service.ts:208-225 | a token made in a rotation expires with its session, a first one its lifetime after it was made |
| `SessionTrace.StampHasACause` | src/modules/auth/auth.service.ts:101-120 | the stamp on a revoked session, time and reason, is that of a sign-out, a revocation, a revoke-all or a reuse by its own user in the run |
| `SessionTrace.EndedByARequest` | src/modules/auth/auth.service.ts:677-867 | a session is revoked if and only if the run holds such a request |
| `SessionTrace.EveryTokenEnd` | src/modules/auth/auth.service.ts:690-735 | a token ends only in its own exchange, or in a request that ended its session, and at that time |
| `SessionService.Service.CreateSessionAndTokens` | src/modules/auth/auth.service.ts:175-225 | a session of 7 days, 8 hours for a super admin, and its first token |
| `SessionService.Service.RevokeAllSessions` | src/modules/auth/auth.service.ts:101-120 | every unrevoked session and token of the user is stamped, earlier stamps stand, the live sessions are counted |
| `SessionService.Service.RefreshToken` | src/modules/auth/auth.service.ts:677-738 | the five refusals in their order, reuse among them with its revocation, else the rotation |
| `SessionService.Service.SignOut` | src/modules/auth/auth.service.ts:740-781 | only a pair that was signed is acted on |
| `SessionService.Service.SignOutByToken` | src/modules/auth/auth.service.ts:800-822 | the token's own user and session are signed out; an unknown token answers the same and changes nothing |
| `SessionService.Service.RevokeOwnSession` | src/modules/auth/auth.service.ts:847-867 | another user's session is not found; one's own is stamped again even if revoked |
| `ChallengeRuns.UsedAtMostOnce` | src/modules/auth/auth.service.ts:518-671 | in every run, whatever the mix of codes, links, resends, other devices, 2FA changes and expiries, a challenge opens at most one session, for the user it was issued to, or confirms one 2FA change, never both, and is then gone |
| `ChallengeRuns.GoneForever` | src/modules/auth/auth.service.ts:163-167 | once gone, in every continuation, no code, resend, 2FA change or link ever made for the challenge does anything but be refused |
| `ChallengeRuns.OnlyTheNewestLink` | src/modules/auth/auth.service.ts:593-625 | a link opens a session if and only if its key, its challenge and the user are there, and it is then the link of the newest message; the challenge ends |
| `ChallengeRuns.OnlyTheNewestCode` | src/modules/auth/auth.service.ts:518-564 | a code opens a session if and only if the challenge lives, the browser is the one that began, the user is there, and the newest message of the challenge said that code |
| `ChallengeRuns.FailedChecksBounded` | src/modules/auth/auth.service.ts:543-550 | over its whole life a challenge takes at most 3·(5−1)+5 = 17 wrong codes at sign-in, although each resend resets the count |
| `ChallengeRuns.BoundIsReached` | src/modules/auth/auth.constants.ts:34-43 | some run reaches 17, so no smaller bound holds |
| `ChallengeTrace.EveryChallengeIsTold` | src/modules/auth/auth.service.ts:518-671 | in every run a challenge is in Redis if and only if it was begun and nothing has ended it since (time, another browser, the right code, the fifth wrong one, its link, the switch), and it holds the browser it began in, the code said last, and the true numbers of wrong codes and resends |
| `ChallengeTrace.CodeAnswers` | src/modules/auth/auth.service.ts:518-575 | so a code opens the owner's session if and only if the challenge lives, the browser is the one it began in and the code the one said last; each refusal is given exactly where it belongs |
| `ChallengeTrace.RoomLeft` | src/modules/auth/auth.service.ts:543-548 | a challenge that lives has had at most four wrong codes since its last message, and at most three resends |
| `ChallengeTrace.ResendAnswers` | src/modules/auth/auth.service.ts:627-665 | a resend goes out if and only if the challenge lives, fewer than three have, the last is not still cooling and the user is there |
| `ChallengeTrace.WrongCodesBounded` | src/modules/auth/auth.service.ts:543-550 | at most 17 codes are ever answered as wrong for one challenge |
| `ChallengeTrace.OneUse` | src/modules/auth/auth.service.ts:518-625 | over a whole run at most one request is answered with a session or a 2FA change by a challenge, and none while it lives |
| `ChallengeTrace.LinkSent` | src/modules/auth/auth.service.ts:497-503 | the link mailed by a password sign-in or a resend opens the owner's session; the other routes make none |
| `ChallengeTrace.SwitchStands` | src/modules/auth/auth.service.ts:924-937 | the second factor of a user stands where it was last set |
| `ChallengeTrace.ToggleAnswers` | src/modules/auth/auth.service.ts:873-924 | it is set by a citizen with the right password and the code last said of a living challenge of its own, and by no one else |
| `LoginLockout.WrongPasswordsBounded` | src/modules/auth/auth.service.ts:420-449 | in every interleaving of sign-ins with at most n of an address in flight at once its count of wrong passwords never passes 4+n between two resets, and with n of a network 29+n |
| `LoginLockout.BoundIsMet` | src/modules/auth/auth.service.ts:420-449 | for every n some run with at most n in flight brings the count of an address there |
| `LoginLockout.HourNeedsSix` | src/modules/auth/auth.service.ts:427-437 | the lock of an hour can be announced if and only if six sign-ins of an address can be in flight at once |
| `LoginTrace.WrongPasswordIsCounted` | src/modules/auth/auth.service.ts:443-464 | a wrong password, or any for an unknown user, is refused, opens no session and no challenge, and adds exactly one to the counts of the address and the network it was typed for |
| `LoginTrace.RightPasswordGetsIn` | src/modules/auth/auth.service.ts:466-488 | with the right one a blocked user is refused, and any other gets a session if the second factor is off or a citizen is on a trusted device, else a challenge |
| `LoginTrace.RightPasswordCounts` | src/modules/auth/auth.service.ts:466-473 | the right password counts nothing and sets the count of the address to zero unless the user is blocked |
| `LoginTrace.CountersCount` | src/modules/auth/auth.service.ts:443-455 | in every run each counter is the number of failed sign-ins, read off the events, since its last reset |
| `LoginTrace.FailuresBounded` | src/modules/auth/auth.service.ts:420-449 | so with at most n in flight at once at most 4+n fail for an address, and 29+n for a network, between two resets |
| `LoginTrace.Locks` | src/modules/auth/auth.service.ts:420-437 | a sign-in is begun if and only if the network has fewer than thirty failures and the address fewer than five; each refusal is given exactly in its own range |
| `LoginTrace.EverySignInWasProved` | src/modules/auth/auth.service.ts:439-515 | the sessions without a challenge and the challenges of a user number exactly the events that showed its password, or its Google profile, and were due to be let through |
| `LoginTrace.EveryDirectSession` | src/modules/auth/auth.service.ts:475-488 | and those without a challenge exactly the ones for which no second factor was due |
| `LoginTrace.SessionsBounded` | src/modules/auth/auth.service.ts:413-625 | a user never has had more sessions, through challenges or not, than first factors shown |
| `LoginTrace.GoogleGetsIn` | src/modules/auth/auth.service.ts:1044-1114 | a Google sign-in ends in a signup, a refusal, a session or a challenge exactly as the account is unknown, blocked, without or with a second factor |
| `ChallengeRuns.StepKeeps` | src/modules/auth/auth.service.ts:147-167 | every endpoint and every expiry keeps each live challenge in force for its newest message, each link key pointing at it, its use count at zero and its failures within bounds |
| `ChallengeService.Service.LogIn` | src/modules/auth/auth.service.ts:439-515 | a wrong password is refused and opens nothing; otherwise the blocked account, the counter reset, then the direct session of an account without second factor or a citizen's trusted device, else a challenge with a code and a link |
| `ChallengeService.Service.BeginLogIn` | src/modules/auth/auth.service.ts:420-437 | the counters of network and address with their refusals, before the password is looked at |
| `ChallengeService.Service.VerifyLoginOtp` | src/modules/auth/auth.service.ts:518-575 | expiry, another browser (its challenge key deleted, the link's not), a wrong code counted, the fifth ending the challenge, else one session |
| `ChallengeService.Service.CompleteMagicLogin` | src/modules/auth/auth.service.ts:593-625 | both keys must be there; both go, and the session follows if the user exists |
| `ChallengeService.Service.ResendLoginOtp` | src/modules/auth/auth.service.ts:627-671 | the limit, the cooldown and the user, then a new code and link, attempts at zero, one more resend |
| `ChallengeService.Service.LogInWithGoogle` | src/modules/auth/auth.service.ts:1044-1114 | a Google sign-in: a signup started for an unknown account, refused, direct, or a challenge without a link |
| `ChallengeService.Service.Toggle2fa` | src/modules/auth/auth.service.ts:873-941 | citizens only, password first; a challenge without a link, or its code taken and the switch set |
| `Csv.ParsePrint` | src/modules/payment/payment.service.ts:764-815 | for arbitrary rows of arbitrary strings, parsing what was written gives the rows back, an empty row coming back as one empty field |
| `Csv.RoundTrip` | src/modules/admin/admin.service.ts:585-632 | parsing gives back exactly the rows written if and only if none of them is empty |
| `Csv.FieldBack` | src/modules/payment/payment.service.ts:764-767 | any field, quoted or not, is read back whole before a comma or a line end |
| `Csv.PrintIsInjective` | src/modules/payment/payment.service.ts:764-815 | two exports have the same text if and only if they have the same rows |
| `Export.UnpagedIs` | src/modules/payment/payment.service.ts:773-777 | the unpaged list holds exactly the matching rows, in strictly ascending order of id |
| `Export.PageIs` | src/modules/payment/payment.service.ts:773-777 | the page behind the n-th row, cursor skipped, is the next slice of the unpaged list |
| `Export.Stream` | src/modules/payment/payment.service.ts:769-819 | the cursor loop terminates, writes the header and the lines of the unpaged list, and asks floor(n/500)+1 queries |
| `Export.DocumentParses` | src/modules/payment/payment.service.ts:760-815 | any export read back is its header and the rendered fields of its rows |
| `Export.StreamLedgerCsv` | src/modules/payment/payment.service.ts:754-820 | end to end: the output read back is the header and one record for every matching payment, in order of id, with each value under its own column |
| `Export.StreamComplaintsCsv` | src/modules/admin/admin.service.ts:569-638 | the same for the complaint export |
| `PermissionRuns.CacheAgrees` | src/lib/permissions.ts:22-66 | from any sound tables and a cold cache, after any RBAC writes, lookups, write-backs, key expiries and changes of account type, each harmless by the join rows when it is made, every cached set and every answer is the uncached computation |
| `PermissionRuns.CalmIsExact` | src/lib/permissions.ts:22-66 | all along a run cache and lookups are right if and only if every step of it is harmless |
| `PermissionRuns.QuietIsHarmless` | src/lib/cache.ts:8-22 | with account types fixed and no lookup in flight every step is harmless |
| `PermissionRuns.StepExact` | src/modules/rbac/rbac.service.ts:62-356 | from a right cache a step leaves cache and lookups in flight right if and only if it is harmless: a write that goes through touches no role a looked-up user draws on so as to change what it carries, and a change of account type concerns nobody remembered or makes no difference |
| `PermissionChanges.WhatAWriteChanges` | src/modules/rbac/rbac.service.ts:62-356 | any step changes what a user may do if and only if, beforehand, it will be let through and the join rows say so: a deleted permission is carried by a role the user draws on, a role edit changes what its roles carry together, a new assignment carries something else; nothing else ever does |
| `PermissionChanges.WhatAWriteLeaves` | src/modules/rbac/rbac.service.ts:62-356 | after any step that goes through every user may do exactly what the earlier join rows and the write say |
| `PermissionChanges.WhoMayWrite` | src/modules/rbac/rbac.service.ts:62-356 | each write goes through if and only if the tables meet its conditions (unused code or name, known ids, none twice in a new role, not built in, not held by anyone), and otherwise changes nothing |
| `PermissionChanges.NewRoleGives` | src/modules/rbac/rbac.service.ts:163-196 | a role just made gives those it is assigned to exactly the permissions it was made with |
| `PermissionChanges.NewPermissionBrings` | src/modules/rbac/rbac.service.ts:62-82 | a new permission adds its own, until then unknown, code to what it is put on |
| `PermissionChanges.RenameMovesTheName` | src/modules/rbac/rbac.service.ts:198-248 | a role renamed takes the new name and frees the old one |
| `PermissionChanges.EditKeepsTheRest` | src/modules/rbac/rbac.service.ts:84-106 | an edit replaces the texts given and nothing else of that permission or any other |
| `PermissionChanges.CreateRoleSame` | src/modules/rbac/rbac.service.ts:163-196 | a new role changes no one's permissions, which is why no key is dropped |
| `PermissionChanges.UpdatePermissionSame` | src/modules/rbac/rbac.service.ts:84-106 | editing a permission changes no one's codes, since the code is not editable |
| `PermissionChanges.CreatePermissionSame` | src/modules/rbac/rbac.service.ts:62-82 | a new permission is on no role, so it changes no one's codes |
| `PermissionRuns.DeletingARoleTakesNothing` | src/modules/rbac/rbac.service.ts:250-288 | deleting a role never changes what anyone may do |
| `PermissionRuns.DeletingABuiltInStrands` | src/modules/rbac/rbac.service.ts:257-264 | without the built-in guard a fallback user would be left with nothing |
| `PermissionRuns.DeletingAnAssignedRoleFallsBack` | src/modules/rbac/rbac.service.ts:265-272 | without the in-use guard a user whose only role goes would get the fallback's permissions |
| `PermissionRuns.AccountTypeChangeStaleness` | src/modules/admin/admin.service.ts:181-204 | changing an account type keeps cache and lookups right if and only if nothing is remembered of the user, or the user has roles of its own, or the two mirrored roles carry the same permissions |
| `PermissionRuns.StaleAnswerReached` | src/modules/admin/admin.service.ts:181-204 | after harmless steps an officer is made a citizen, who should hold nothing, and is answered with the officer's code |
| `PermissionRuns.StalenessEnds` | src/lib/permissions.ts:48-49 | with no lookup in flight, the key expiring, or the user being given roles, puts that right |
| `PermissionRuns.LateWriteBack` | src/lib/cache.ts:19-21 | what is written back after a write has landed inside the lookup is right if and only if that condition on the join rows says the write makes no difference to the user |
| `PermissionRuns.LateWriteBackReached` | src/lib/cache.ts:19-21 | some run from a cold cache without a change of account type ends with an officer's old code in the cache, when the officer's role carries none |
| `PermissionService.Service.GetUserPermissionCodes` | src/lib/permissions.ts:22-46 | a hit is served as it is; a miss is computed, for whatever account type the caller names, and left to be written back |
| `PermissionService.Service.WriteBackFill` | src/lib/cache.ts:19-21 | the codes of a miss are put in the cache, replacing what is there by then |
| `PermissionService.Service.AddPermission` | src/modules/rbac/rbac.service.ts:62-82 | a taken code is refused, else a new permission that is not built in |
| `PermissionService.Service.EditPermission` | src/modules/rbac/rbac.service.ts:84-106 | of name, description and category what is given is replaced, and nothing else |
| `PermissionService.Service.RemovePermission` | src/modules/rbac/rbac.service.ts:108-140 | a built-in one is refused; else it goes, off every role, and every key with it |
| `PermissionService.Service.AddRole` | src/modules/rbac/rbac.service.ts:163-196 | taken name, unknown permission and repeated id are refused; else a role that mirrors nothing |
| `PermissionService.Service.ChangeRole` | src/modules/rbac/rbac.service.ts:198-248 | the refusals in their order; what is given is replaced, and every key dropped |
| `PermissionService.Service.RemoveRole` | src/modules/rbac/rbac.service.ts:250-288 | built-in and held roles are refused; else the row and its join rows go and every key is dropped |
| `PermissionService.Service.AssignRoles` | src/modules/rbac/rbac.service.ts:314-356 | the user's rows are replaced by the given set and the user's key dropped |

## Left out

- `ComplaintService.Service.AssignOfficer`: one atomic step; the stale write it allows in between is stated apart, in `ComplaintRuns.StaleAssign`. The officers are given as a list and the category's department as an argument.
- `ComplaintService.Service.ReadForChange`: the row read and the count of proofs are one step; attachments are never removed, so a later count sees no less.
- `ComplaintService.Service.ReadForFeedback`: the row read and the look for an earlier rating are one step; the unique key on the rating is checked again at the insert.
- `ComplaintService.Service.AutoCloseResolved`: the limit of 200 rows a run is the caller's choice of batch.
- `ComplaintService.Service.AddAttachment`: the count and the insert are one step, so two uploads at once do not pass the limit here.
- `ComplaintService.Service.CreateComplaint`: `createdAt` and `slaDueAt` come of one reading of the clock; the duration of the category's SLA and the existence of the ward are arguments; complaints made by the seed script are not covered.
- `PaymentService.Service.ApproveAskedRefund`: one atomic step; two approvals of one refund at once are not interleaved.
- `PaymentService.Service.UpdateRequestStatus`: one atomic step, on which `PaymentRuns.EveryRun` relies; the stale write is stated apart, in `PaymentRuns.UnguardedStatusWrite`.
- `PaymentService.Service.CheckValidation`: amounts are whole paisa, so the comparison as floating-point numbers is not modelled.
- `SessionService.Service.RefreshToken`: one atomic step on one reading of the clock; two exchanges of one token at once are not interleaved. The cached session key and the denylist of access tokens are not part of this model.
- `ChallengeService.Service.VerifyLoginOtp`: one atomic step, as is opening a link, so the branch for a challenge deleted in between has no run here. Trusted-device records and alert mails are not modelled.
- `ChallengeService.Service.LogIn`: how long a counter lasts is not modelled, only that it may end at any moment; an account and its address are one, and the user row is read with the comparison of the password.
- `ChallengeRuns.FailedChecksBounded`: counts the checks of `verifyLoginOtp`; the code check of `toggle2fa` keeps no count.
- `ChallengeService.Service.LogInWithGoogle`: the signup it starts is not followed, nor is the linking of the Google account.
- `Export.PageIs`: the cursor of the database client is taken to mean the rows from that id on in the requested order.
- `Export.Stream`: the table is fixed while an export runs; the filters are an arbitrary predicate and the cells are given as text.
- `Csv.ParsePrint`: the parser ends a record at a line feed and takes a carriage return as data; a reader that also ends records at CR LF would differ on fields that hold one.
- Express routing, validation schemas, error mapping, logging, metrics, mail, uploads and PDF rendering: plumbing and foreign calls.
- Redis outages, and the fallbacks that serve from the database while one lasts.
- bcrypt, HMAC, JWT signing and Google OAuth: library behaviour.
- Nearby search, distances and the duplicate hint: floating-point trigonometry.
- The rate limiter: its counting rules live in libraries outside the repository.
- Raw SQL reports, the daily series, the today and month figures, dashboard counts, search filters and master-data screens: thin queries.
- Comments, upvotes and the priority bump, pagination, tracking ids, the last-super-admin count, idempotency replay, purge jobs, signup and password reset: they would add only easy members.
- Audit rows, notifications and e-mails other than those of payments: written beside the steps, read by nothing modelled.
