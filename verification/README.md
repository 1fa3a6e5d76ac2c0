# Kori: verified models of transfers, sessions, one-time proofs and idempotency

Kori is the backend of a mobile wallet. This project models the parts of it that must stay right while many requests
run at once, and proves what they keep. `dafny verify dfyconfig.toml` checks everything.

## How the model is built

Each component is a small transition system: a state, a total function `Next` (a step that is not possible leaves the
state alone) and `Run` over any sequence of actions, so a lemma about `Run` holds for every interleaving. Beside it
stands a class that holds the same tables in fields and performs the service's operations in place, statement by
statement; its methods are proved equal to the functions the transition system uses, or to its run of the same request with nothing
in between. A machine that refused everything would be safe too, so each also has a lemma that says what a request achieves.

| file | what it models |
|---|---|
| `Money.dfy` | half-even division, the fee table, the 63-bit bound, amount strings |
| `Bank.dfy` | wallet, user, transaction and ledger rows; each operation applied atomically; the class `Bank` |
| `Interleaving.dfy` | transfers, freezes, activations, suspensions, reactivations and logins at statement granularity on row locks |
| `LockWaits.dfy` | what a transaction in flight waits for, and how many steps it has left |
| `LockRings.dfy` | exactly when everything in flight can still finish, rows locked in any order |
| `LockOrder.dfy` | freedom from deadlock in list order, and a deadlock without it |
| `Outcomes.dfy` | what committed operations did to the rows, and that frozen wallets rest |
| `Books.dfy` | ledger chains, conservation, fee revenue, balanced postings over every interleaving |
| `Sessions.dfy` | refresh-session families of trusted devices; the class `DeviceTable` |
| `Redis.dfy` | how a Redis command can end: answered, applied without an answer, not applied |
| `OtpStore.dfy` | the Redis keys and scripts for codes and proofs; the class `RedisStore` |
| `Evidence.dfy` | sends, verifications, logins and registrations racing over those keys, and the evidence chain |
| `Replies.dfy` | JavaScript values, the BigInt interceptor and JSON text |
| `Idempotency.dfy` | one idempotency key across the Redis marker and the unique column; the class `IdempotencyInterceptor` |
| `Approvals.dfy` | the business approval of one phone; the class `ApprovalDesk` |

Assumptions taken from the database and the libraries:

- An update locks its row, evaluates its filter on the committed row and keeps the lock until commit; writes become
  visible at commit; inserting a unique key waits for another uncommitted insert of it. Any transaction may abort at any
  time. For safety, a transfer locks its rows in any order; list order is assumed only in `LockOrder`.
- The schema's constraints: one SYSTEM wallet in its constrained state, one wallet per user, unique phone and
  idempotency key. Runs start from any tables that satisfy `Bank.Good`.
- In `Sessions` a single statement, and a `$transaction` that is not part of the race, is one step. In `Evidence` each Redis
  command and script is one step, may fail with or without having taken effect, and keys expire at any time.
- UUIDs are fresh. Requests carry the hash of the token they present; nothing needs the hash to be injective. A transaction
  is named by its idempotency key, a wallet id by its place in the string order.

## Where the code and its documentation disagree

- README.md:115 of the repository presents the sorted list as what prevents deadlocks. The list is sorted, but
  `WHERE id IN (...)` does not promise to lock in that order. `LockOrder.AnyOrderCanDeadlock` gives a run that gets stuck;
  `LockRings.FinishesExactlyWithoutRing` says exactly when a run is stuck: when transfers still locking form a ring, each
  lacking a wallet row the next one holds. `LockOrder.EverythingCanFinish` derives that list order would be enough.
- README.md:250 promises that a repeated key returns the original reply. `Idempotency.RepeatsAreAnsweredExactly` says when
  every repeat is: when the reply is cached and no other request is inside the handler or about to delete the marker. It
  fails in two ways. A slow request that lost its marker can delete the reply another one cached
  (`Idempotency.StaleDeleteLosesReply`, `Idempotency.StaleDeleteLosesTransfer`). And a reply whose handler failed after the
  commit, or that Redis did not take, is lost without any other request (`Idempotency.LostRepliesAreNeverReplayed`);
  `Idempotency.NeverAnsweredExactlyWhenLost` says exactly when no repeat is ever answered. No money moves twice either way.
- The comment at backend/src/modules/auth/services/otp.service.ts:164 says a failed send is rolled back entirely.
  `OtpStore.FailedSendRollsBack` says exactly when it is: when nothing was written yet, or the command that failed was not
  applied and the deletes went through. `OtpStore.RollBackIsIncomplete` gives two sends that leave keys behind: one whose
  connection drops half-way, one whose pointer was stored without an answer. The pointer is never taken back, so the
  challenge before it stays superseded (`OtpStore.LostPointerSupersedes`).
- `divideRoundHalfEven` truncates below zero: minus three halves becomes -1 (`Money.HalfEvenFailsBelowZero`);
  `Money.HalfEvenBelowZero` says exactly when it still rounds correctly there. The fee table never calls it with a negative
  amount.

## Model

| member | source | states |
|---|---|---|
| Interleaving.EveryRunIsSerial | backend/src/modules/transactions/transactions.service.ts:446-617 | any interleaving of statements leaves the tables a serial run of the committed operations, in commit order, would leave; each commits once, each succeeds when applied alone, aborted ones leave no trace; schema, balance and restriction rules hold throughout |
| Interleaving.EachCommitIsAtomic | backend/src/modules/transactions/transactions.service.ts:459-507 | tables change only at a commit, exactly as the operation alone would change them at that instant; a transfer replies with the balance documented for that instant and commits only while its three wallets are active, both owners ACTIVE and the funds there, although user rows are never locked |
| Interleaving.EachRefusalIsAtomic | backend/src/modules/transactions/transactions.service.ts:496-507 | a statement rolls its transaction back only if the operation, applied alone at that instant, is refused for the same reason; a suspension only if it is refused |
| Outcomes.EachCommitDoes | backend/src/modules/transactions/transactions.service.ts:459-593 | stated on the rows alone: every step of any interleaving leaves the tables as they are or commits one operation, which found its rows as it must and changes exactly the fields it is for |
| Outcomes.EveryTransferIsRecorded | backend/src/modules/transactions/transactions.service.ts:515-529 | over every interleaving each committed transfer has exactly one row with its key, and that row has its own type, amounts and participants |
| Outcomes.FrozenWalletsRest | backend/src/modules/wallets/wallets.service.ts:136-203 | over every interleaving a wallet frozen by a committed freeze or suspension is inactive and in no committed transfer until an activation of it commits |
| Interleaving.SuspendedOwnersStayRestricted | backend/src/modules/accounts/account-restriction.service.ts:50-99 | no reachable state has a SUSPENDED owner with an active wallet or a session, whatever activations, reactivations and logins race |
| Interleaving.SuspensionIsSteady | backend/src/modules/accounts/account-restriction.service.ts:50-82 | a suspension takes ACTIVE away from no owner whose wallet row another transaction holds |
| Interleaving.SuspensionNamesItsMiss | backend/src/modules/accounts/account-restriction.service.ts:31-89 | a refused suspension names what it missed: no account or wallet at the start, a wallet changed since, or, with the wallet row held, an account changed since |
| Interleaving.OneCommitPerKey | backend/src/modules/transactions/transactions.service.ts:515-529 | of all transfers carrying one idempotency key at most one commits in any interleaving |
| Interleaving.TransferStatementKnows | backend/src/modules/transactions/transactions.service.ts:466-593 | every statement of a transfer keeps the facts it read true of the committed rows and its stage equal to the postings so far; its commit is the atomic transfer |
| Interleaving.ActivateStatementKnows | backend/src/modules/wallets/wallets.service.ts:165-200 | updating under the row lock and checking the owner second means that a committed activation found its owner ACTIVE at commit |
| LockOrder.NoWaitCycle | backend/src/modules/transactions/transactions.service.ts:452-461 | with rows locked in the order of the sorted list, no reachable state of any number of transactions has a wait cycle |
| LockOrder.SomeoneCanStep | backend/src/modules/accounts/account-restriction.service.ts:50-99 | while anything is in flight in such a run, some transaction's next statement is possible |
| LockOrder.EverythingCanFinish | backend/src/modules/transactions/transactions.service.ts:446-461 | from every such state all transactions can be run to their end by their own statements, without aborting any |
| LockRings.FinishesExactlyWithoutRing | backend/src/modules/transactions/transactions.service.ts:459-461 | in every run, rows locked in any order, locks and statements alone can bring everything in flight to its end if and only if no transfers still locking form a ring in which each lacks a wallet row the next one holds |
| LockRings.FinishWithoutRing | backend/src/modules/transactions/transactions.service.ts:446-461 | without a ring a schedule that finishes everything exists in which every SELECT goes on in list order |
| LockRings.OneTransferAtATime | backend/src/modules/transactions/transactions.service.ts:452-461 | in every run at most one transfer is past its locking SELECT, because every one locks SYSTEM's row |
| LockRings.PastFirstLockNeverBlocked | backend/src/modules/accounts/account-restriction.service.ts:50-99 | in every run, in any lock order, no transfer past its SELECT, suspension past its freeze or activation past its update is ever blocked, not even on an idempotency key or a user row |
| LockOrder.AnyOrderCanDeadlock | backend/src/modules/transactions/transactions.service.ts:459-461 | without list order two opposite transfers reach a state in which nothing can move; it holds such a ring and cannot finish |
| Books.BooksBalanceInEveryRun | backend/src/modules/transactions/transactions.service.ts:539-593 | over every interleaving each wallet's ledger chains from its opening to its present balance, the total of all balances is constant, SYSTEM holds its opening balance plus all fees, and each transaction has two or three entries on distinct wallets with debits equal to credits |
| Books.ConsecutiveEntries | backend/src/modules/transactions/transactions.service.ts:545-554 | between two consecutive entries of a wallet balanceAfter moves by exactly the later entry's signed amount |
| Books.LastEntry | backend/src/modules/transactions/transactions.service.ts:563-572 | the last entry of a wallet states its balance |
| Books.FirstEntry | backend/src/modules/transactions/transactions.service.ts:545-554 | the first entry of a wallet starts from its opening balance |
| Books.EveryReplyIsPosted | backend/src/modules/transactions/transactions.service.ts:604-614 | over every interleaving the balance a committed transfer replies with is the balanceAfter of its own debit entry |
| Books.TransferConserves | backend/src/modules/transactions/transactions.service.ts:539-580 | the debit, the credit and the fee leave the sum over all wallets unchanged |
| Bank.TransferKeepsGood | backend/src/modules/transactions/transactions.service.ts:496-593 | a transfer keeps every balance within 0 and 2^63-1 and keys unique, changes nothing but balances in the wallet table, and those of its three wallets only |
| Bank.ApplyKeepsGood | backend/src/modules/wallets/wallets.service.ts:136-203 | every operation keeps the schema constraints, the bounds and the rule on suspended owners |
| Bank.AssertTransferEligibility | backend/src/modules/transactions/transactions.service.ts:330-378 | passes exactly distinct, active participants with the funds for amount and fee: personal to personal, agent to personal, personal to agent or personal to merchant, by kind |
| Bank.EligibilityDecides | backend/src/modules/transactions/transactions.service.ts:330-507 | in one state the locked block executes a transfer if and only if the unlocked check passes, both owners are ACTIVE, the key is new and no credit overflows |
| Bank.TransferMeans | backend/src/modules/transactions/transactions.service.ts:496-593 | when a transfer is executed, which refusal it gets otherwise, and row by row what it writes: its own transaction row, the three balances and an entry for each |
| Bank.Bank.ExecuteAcidTransfer | backend/src/modules/transactions/transactions.service.ts:446-617 | the block in place is executed exactly as the atomic transfer, appends the request's own row, moves the three balances and reports the sender's new one; any failure leaves every table as it was |
| Bank.Bank.SuspendAccount | backend/src/modules/accounts/account-restriction.service.ts:17-106 | exactly for a non-admin, not locked owner of a wallet: wallet inactive, user SUSPENDED, all sessions cleared, nothing else |
| Bank.Bank.ReactivateAccount | backend/src/modules/accounts/account-restriction.service.ts:108-143 | exactly a suspended, non-admin account becomes ACTIVE, its role unchanged; both refusals are told apart |
| Bank.Bank.ActiveWallet | backend/src/modules/wallets/wallets.service.ts:162-203 | exactly an inactive, owned, non-SYSTEM wallet of an ACTIVE owner becomes active; update first, owner check second, rolled back on a restricted owner; every refusal named |
| Bank.Bank.DeactivateWallet | backend/src/modules/wallets/wallets.service.ts:136-157 | exactly an active, owned, non-SYSTEM wallet becomes inactive; every refusal named |
| Bank.Bank.OnModuleInit | backend/src/modules/transactions/transactions.service.ts:69-113 | starts exactly when there is one SYSTEM wallet, ownerless and active, and caches that one |
| Sessions.RefusedRefreshEndsFamily | backend/src/modules/auth/auth.service.ts:368-455 | whatever runs between its statements, a refresh that completes without new tokens leaves its family dead: no refresh in that sid succeeds afterwards |
| Sessions.ReplayIsRefused | backend/src/modules/auth/auth.service.ts:392-449 | an exchanged token exchanges nothing again; presented to the end it is refused |
| Sessions.TokenExchangedOnce | backend/src/modules/auth/auth.service.ts:383-413 | each refresh token is exchanged at most once in any run and is not current afterwards |
| Sessions.ReplacedFamilyNeverReturns | backend/src/modules/auth/auth.service.ts:279-297 | a sid once replaced or cleared is never current again on any device |
| Sessions.SessionsAreWellFormed | backend/src/modules/auth/auth.service.ts:536-547 | sid is null exactly when jti is, and no unauthorised device or suspended owner has a session |
| Sessions.OtherFamiliesUntouched | backend/src/modules/auth/auth.service.ts:345-357 | a refresh, its replay reaction or a logout with another sid leaves the row and all other rows unchanged |
| Sessions.TokensWorkWhenIssued | backend/src/modules/auth/auth.service.ts:383-413 | over every run a token handed out by a login, registration or refresh is at that moment the current one of its authorised device and ACTIVE owner; a successful refresh replaces exactly the working token it was given, in that row only |
| Sessions.UndisturbedLogin | backend/src/modules/auth/auth.service.ts:279-304 | a login opens the new family and hands out its token exactly on an authorised device of an ACTIVE owner |
| Sessions.AccountStatementsMean | backend/src/modules/accounts/account-restriction.service.ts:91-99 | suspension, reactivation and registration leave exactly these statuses and device rows |
| Sessions.UndisturbedRefresh | backend/src/modules/auth/auth.service.ts:368-455 | with nothing in between, a refresh succeeds exactly for the current token of an authorised device of an ACTIVE owner and leaves the new jti in the same family; otherwise a family current under another jti ends |
| Sessions.DeviceTable.RefreshTokens | backend/src/modules/auth/auth.service.ts:368-455 | the four statements in place: success exactly when the row matches, the row then holding the new jti in the same family; otherwise the family is ended exactly when it is current under another jti |
| Sessions.DeviceTable.LogoutCurrentSession | backend/src/modules/auth/auth.service.ts:345-357 | clears exactly the row that is current in the token's family |
| Sessions.DeviceTable.RevokeTrustedDevice | backend/src/modules/auth/auth.service.ts:536-547 | an existing device loses authorisation and session |
| Sessions.DeviceTable.EstablishSession | backend/src/modules/auth/auth.service.ts:283-304 | login's update matches exactly an authorised device of an ACTIVE owner, and writes the new family |
| Evidence.AuthorityHasEvidence | backend/src/modules/auth/auth.service.ts:139-201 | in every run each account and each authorised device not there at the start has a full chain of evidence in the history |
| OtpStore.RedisStore.ConsumeRegistrationAuthorization | backend/src/modules/auth/scripts/consume-registration-authorization.script.ts:1-19 | CONSUMED, and the proof gone, exactly for the hash, phone and device stored; MISSING without a proof, INVALID otherwise |
| OtpStore.RedisStore.ConsumeDeviceEnrollmentAuthorization | backend/src/modules/auth/scripts/consume-device-enrollment-authorization.script.ts:1-20 | CONSUMED, and the proof gone, exactly for the hash, user, phone and device stored; MISSING without a proof, INVALID otherwise |
| Evidence.EveryOutcomeIsBacked | backend/src/modules/auth/services/otp.service.ts:192-302 | each account rests on a consumed and issued registration proof and an earlier VERIFIED code for the same phone and device; each enrolment on a VERIFIED code and a proof issued by a PIN-checked login of the same user and device; the token presented is the one that was issued |
| Evidence.EvidenceIsNotShared | backend/src/modules/auth/services/auth-proof.service.ts:78-157 | two outcomes never share a consumed proof, an issued proof or a VERIFIED code, nor two enrolments a PIN-checked login |
| Evidence.VerifiedAtMostOnce | backend/src/modules/auth/scripts/verify-otp.script.ts:21-86 | a challenge id yields VERIFIED at most once |
| Evidence.NotVerifiedOnceSuperseded | backend/src/modules/auth/services/otp.service.ts:155-161 | a challenge is never verified after another one for its phone has become active |
| Evidence.FewGuessesBetweenResets | backend/src/modules/auth/scripts/verify-otp.script.ts:14-67 | between two resets of a phone's counter at most the maximum of codes is compared and rejected, across any number of resends, and nothing verifies at the maximum |
| Evidence.CounterCountsRejections | backend/src/modules/auth/scripts/verify-otp.script.ts:47-67 | the counter equals the rejections since its last reset and never passes the maximum |
| Evidence.LoginsAndEnrollmentsAreChecked | backend/src/modules/auth/services/otp.service.ts:219-262 | at every step a PIN login starts an enrolment only for an ACTIVE account on a device not authorised, and a verified code goes on to enrolment only with a proof and for an ACTIVE account, to registration only for a phone without one |
| Evidence.HonestRegistration | backend/src/modules/auth/auth.service.ts:139-201 | from any state in which a code may be sent, code, proof and registration lead to the account and an authorised device, and use the proof up |
| Evidence.HonestEnrollment | backend/src/modules/auth/services/otp.service.ts:214-270 | PIN login, code and proof authorise exactly the device they were issued for, and use the proof up |
| Evidence.UndisturbedSend | backend/src/modules/auth/services/otp.service.ts:87-189 | the interleaved statements of a send, with nothing in between, change Redis exactly as the send in place, whichever commands fail |
| Evidence.ProofsAreSpentOnce | backend/src/modules/auth/scripts/consume-device-enrollment-authorization.script.ts:1-20 | in every run an issued proof is consumed at most once, and a VERIFIED code earns either one registration proof or, with an enrolment proof, one enrolment |
| OtpStore.RedisStore.VerifyOtpScript | backend/src/modules/auth/scripts/verify-otp.script.ts:1-87 | the script in place: its status in the script's order of checks, a wrong code being the last allowed or not, and the counted, consumed or untouched keys |
| OtpStore.RedisStore.SendOtp | backend/src/modules/auth/services/otp.service.ts:87-189 | the send in place with its roll-back, for every combination of answered, lost and failed commands |
| OtpStore.OnlyTheSentCodeVerifies | backend/src/modules/auth/services/otp.service.ts:126-161 | after a successful send its challenge accepts exactly the code sent, from exactly the device it was sent to |
| OtpStore.RedeemableExactlyWhenSent | backend/src/modules/auth/services/otp.service.ts:142-173 | a new challenge can be verified if and only if the send succeeded, or its pointer was stored without an answer and the challenge could not be deleted |
| OtpStore.FailedSendRollsBack | backend/src/modules/auth/services/otp.service.ts:142-173 | a send that does not succeed leaves every key as it was if and only if nothing was written, or the failed command was not applied and the deletes due went through |
| OtpStore.RollBackIsIncomplete | backend/src/modules/auth/services/otp.service.ts:163-173 | the documented full roll-back fails for a connection dropped half-way and for a pointer stored without an answer |
| OtpStore.LostPointerSupersedes | backend/src/modules/auth/services/otp.service.ts:155-173 | after a pointer is left behind by a failed send, no code for another challenge of the phone is accepted |
| OtpStore.RedisStore.IssueRegistrationAuthorization | backend/src/modules/auth/services/auth-proof.service.ts:78-103 | a proof reported as stored is the one the issued token consumes; a set that fails may still have stored it |
| Replies.ReplayedReplyIsEqual | backend/src/common/interceptors/bigInt.interceptor.ts:33-67 | a reply can be cached exactly when it holds no BigInt, and its replay then has the same body on the wire |
| Replies.SerializeMeans | backend/src/common/interceptors/bigInt.interceptor.ts:33-67 | every BigInt becomes a canonical decimal text that reads back as it, every date its ISO text; everything else, keys and order stay |
| Replies.SerializeBigInt | backend/src/common/interceptors/bigInt.interceptor.ts:33-67 | the recursive method with its loops equals the function the JSON lemmas are about |
| Replies.TransferRepliesReplay | backend/src/modules/transactions/transactions.service.ts:604-614 | the reply of a transfer is cacheable and replays equal |
| Idempotency.RepliesAgree | backend/src/common/interceptors/idempotency.interceptor.ts:65-144 | despite expiry, stale deletes, lost Redis and crashes at most one transfer commits, a cached body is that commit's reply as JSON, and all successful replies, fresh or replayed, have equal bodies |
| Idempotency.CacheStaysExactlyWithoutStragglers | backend/src/common/interceptors/idempotency.interceptor.ts:118-144 | until it expires a cached reply stays in every run if and only if no other request is inside the handler or about to delete |
| Idempotency.RepeatsAreAnsweredExactly | backend/src/common/interceptors/idempotency.interceptor.ts:65-144 | in every run without expiry each repeat that reaches Redis gets the committed reply if and only if that reply is cached and no other request is inside the handler or about to delete the marker |
| Idempotency.NeverAnsweredExactlyWhenLost | backend/src/common/interceptors/idempotency.interceptor.ts:118-144 | after a commit no repeat is ever answered from the cache, whatever happens, if and only if the reply is neither cached nor still to be stored by a request that can |
| Idempotency.LostRepliesAreNeverReplayed | backend/src/common/interceptors/idempotency.interceptor.ts:118-144 | for every reply, a handler failing after its commit and a store Redis does not take each lose it for good, with no other request involved |
| Idempotency.ReplaysWithoutStragglers | backend/src/common/interceptors/idempotency.interceptor.ts:87-94 | then every request that reaches Redis is answered with the same body as the transfer that committed |
| Idempotency.StaleDeleteLosesReply | backend/src/common/interceptors/idempotency.interceptor.ts:134-144 | the documented replay promise fails, for every reply that can be cached, in a run without expiry of the cached reply |
| Idempotency.StaleDeleteLosesTransfer | backend/src/common/interceptors/idempotency.interceptor.ts:134-144 | it fails so for an ordinary transfer's reply |
| Idempotency.FindingDecides | backend/src/common/interceptors/idempotency.interceptor.ts:78-95 | in any state PROCESSING refuses a request and a cached reply answers it, neither reaching the handler; only without a marker or without Redis does it go on to take the lock |
| Idempotency.UndisturbedRequest | backend/src/common/interceptors/idempotency.interceptor.ts:65-144 | with nothing in between, a request is replayed, refused, or handled and then cached or cleaned up, whichever commands fail |
| Idempotency.IdempotencyInterceptor.Intercept | backend/src/common/interceptors/idempotency.interceptor.ts:46-145 | one request in place, for every ending of the Redis commands and the handler, equals the machine's run of its steps: replay, conflict, commit and cache, or clean up |
| Approvals.ApprovalUsedOnce | backend/src/modules/auth/auth.service.ts:688-740 | an approval is activated at most once, by a claim whose clock reading lay before its expiry, by one account with the approved role at the claim; every account's wallet type matches its role even when a renewal races the claim |
| Approvals.ActivatedAfterExpiry | backend/src/modules/auth/auth.service.ts:715-724 | the activation time is a second clock reading: for any time passing between the two, a run records an activation at or after the expiry |
| Approvals.ActivatedIsFinal | backend/src/modules/auth/auth.service.ts:586-609 | once activated an approval and its account never change |
| Approvals.UndisturbedApproval | backend/src/modules/auth/auth.service.ts:557-664 | with nothing in between, the statements create or renew the approval exactly for a free phone without a used or unexpired one |
| Approvals.UndisturbedRegistration | backend/src/modules/auth/auth.service.ts:688-756 | with nothing in between, the statements claim the approval and create the account of its role exactly while it is unused and unexpired and the phone free |
| Approvals.ApprovalDesk.ApproveBusinessAccount | backend/src/modules/auth/auth.service.ts:557-664 | in place as in the machine; succeeds exactly for a free phone without a used or unexpired approval |
| Approvals.ApprovalDesk.RegisterBusiness | backend/src/modules/auth/auth.service.ts:688-756 | in place as in the machine: claim, account and wallet of the matching type together, or nothing |
| Money.HalfEvenIsNearest | backend/src/common/utils/round-half-even.ts:1-18 | for n >= 0 and d > 0 the result is the unique nearest integer, ties to even |
| Money.HalfEvenBelowZero | backend/src/common/utils/round-half-even.ts:5-17 | below zero it is nearest-even if and only if the truncated part is under a half, or a half above an even quotient |
| Money.HalfEvenFailsBelowZero | backend/src/common/utils/round-half-even.ts:5-17 | minus three halves is rounded to -1 instead of -2 |
| Money.HalfEvenScales | backend/src/common/utils/round-half-even.ts:1-18 | scaling both operands changes nothing |
| Money.HalfEvenMonotone | backend/src/common/utils/round-half-even.ts:1-18 | a larger numerator never gives a smaller result |
| Money.FeeTable | backend/src/common/utils/fee-calculator.util.ts:13-23 | for every kind and amount the fee charged is the only right one: 500 for sending, the nearest-even of 1.85 per cent for cashing out, 0 otherwise |
| Money.CashOutFeeMonotone | backend/src/common/utils/fee-calculator.util.ts:16-20 | the cash-out fee never falls as the amount grows |
| Money.SplittingChangesFeeLittle | backend/src/common/utils/fee-calculator.util.ts:16-20 | cashing out in k payments changes the total fee by at most (k+1)/2 |
| Money.AmountTextsAccepted | backend/src/modules/transactions/transactions.service.ts:388-420 | accepted texts are exactly the canonical decimals of 1 to 10,000,000, the limit error covers exactly the larger ones of up to eight digits, and the Money bound never trips for any kind |
| Money.AcceptedAmounts | backend/src/modules/transactions/transactions.service.ts:403-419 | the printed amount is priced with itself, 500 for sending, nearest-even 1.85 per cent for cashing out and 0 otherwise, and the sum |
| Money.DigitsByPosition | backend/src/modules/transactions/transactions.service.ts:403 | a decimal text has the value of its digits by position |
| Money.FromMinorUnits | backend/src/domain/value-objects/money.vo.ts:16-27 | accepts exactly 0 to 2^63-1 |

## Left out

- Interleaving.EveryRunIsSerial: wallets and users are not created while it runs (a new wallet starts at zero), and a collision of public `trxId` values appears only as an abort.
- Interleaving.SuspendedOwnersStayRestricted: the devices of a user are one set of open sessions behind one lock; the rows themselves are in `Sessions`.
- Sessions.RefusedRefreshEndsFamily: statements are atomic on the row and the owner's status together, so PostgreSQL's re-evaluation of a sub-query after a lock wait is not modelled.
- Bank.AssertTransferEligibility: the schema's only currency is BDT, so the currency check never refuses and is not modelled; in `Interleaving` only its immutable part (distinct participants, wallet types) restricts a transfer; its unlocked reads of activity and balance are repeated under the locks.
- Approvals.ApprovalUsedOnce: one phone at a time, because approvals and accounts of different phones share no row; the registration proof itself is consumed in `Evidence`.
- Idempotency.Next: one key at a time, because keys share neither marker nor row.
- Bank.Bank.OnModuleInit: the BDT check is not modelled, for the same reason.
- Idempotency.RepliesAgree: replies are objects, as those of every route behind the interceptor; only those count as cached in its `if`.
- Login throttling (`LOGIN_MAX_FAILURES`): a counter of the same kind as the one in `Evidence`.
- Foreign-key share locks, MVCC snapshots and PostgreSQL's own deadlock detector, which would abort one of the stuck transfers.
- Wallet lookups by user and by phone, balance queries and device listing: reads without state.
- The Redis client's connection events and the TTL values; a command's failure and a key's expiry are actions of the model.
- JWT signing, Argon2, SHA-256, phone parsing, cookies, guards, controllers, DTO decorators and the exception filter.
- ADD_MONEY beyond its zero fee: nothing executes it.
- NaN, infinities, symbol keys and invalid dates in `Replies`.
