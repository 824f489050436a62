# CrossFX settlement, verified

CrossFX moves money from a South African sender to a recipient abroad.  A sender
takes out a quote, pays rand in, and a worker settles the remittance by a pooled
UCTUSD payment on the XRP Ledger and a credit in an internal ledger; the
recipient later cashes out, which burns tokens and pays fiat.  This project
models that system in Dafny and proves what it promises.

## How it is built

- **`Schema`, `Bookkeeping`, `Transactions`** are the stored rows, the ledger's
  reading of them, and what each database transaction commits as a function of
  the tables it meets.  Integers stand for money: cents for a remittance's rand,
  millionths for tokens and for every ledger amount, so columns with two and six
  decimal places are exact.
- **`Protocol`** is a state machine over the system's own commits.  API requests
  check and later commit; messages are delivered, taken over, acked; a handler
  claims, looks up, pays, records success or failure; anything crashes anywhere;
  the XRP Ledger answers as it likes, and a payment that raised may still have
  landed.  A run is any sequence of these steps from an empty system.  Histories
  nothing reads (`Trail`, `BurnTrail`) count what landed on-chain.
- **`TableSafety` to `LimitSafety`** are the inductive invariants and the theorems
  about every run.  `SoleMessages` says exactly when one worker per remittance can
  be relied on.  `Races`, `CashOutRaces`, `LimitRaces`, `Repayments`, `LateMarks`
  and `Witnesses` hold the exact steps at which a documented property is lost, and
  runs from an empty system that lose it.
- **`Payments`, `Outcomes`, `Windows`, `Calendar`** say the same results on the rows'
  own fields: who each entry pays, in which currency and how much; what handling one
  message comes to; how much rand a sender has spent since a midnight and since the
  first of the month.
- **`Database`, `LedgerService`, `QueueService`, `CashService`, `Routers`,
  `Worker`** are the imperative services in the source's own shape: classes and
  methods that update a session, a stream and rows in place, commit, roll back
  and loop.  `Routers.Api` and `Worker.SettlementWorker` carry the protocol state
  their database and queue stand for, and each commit is shown to be a step the
  protocol has, so the theorems about runs speak about them.
- **`Fees`, `FeeLaws`, `Decimals`** are the quotation arithmetic over Python's
  28-digit decimals, with fees as exact integers where 28 digits suffice;
  **`FxRates`** the exchange-rate cache; **`MoneyFormat`** the
  front end's rounding and printing of decimal text.

### Assumptions, named

Each theorem about runs says which of these it needs (`Protocol.Assumed`):

- `burns`: a burn that raised did not land.  Settlement payments get no such
  assumption.
- `handover`: an unacked message is handed over only once its earlier handler
  has stopped.
- `remittanceChecks`: when a request that confirms, queues, requeues or refunds a
  remittance commits, the checks it made would still pass.  A request that commits
  at once satisfies this.  Publish-then-mark does not commit at once: a worker that
  claims the message before the QUEUED mark commits breaks it.
- `cashOutChecks`: the same of requests that approve or reject a cash-out.
- `oneWorker`: no message of a remittance is claimed while another handler is at
  work on it.  This one need not be assumed: clean handovers imply it as long as a
  message is published only for a remittance that has none undelivered or unacked
  (`SoleMessages`), and the theorems that use it are given in that form too.

The central safety result, one credit or one refund and never both, needs none
of them.  The theorems about cash-outs and the pool need nothing of remittance
requests, and those about remittances nothing of cash-out requests; below, requests
are called fresh when the one of the two assumptions that bears on them holds.
Balance rows are updated one transaction at a time, as their row locks
intend.

### What the proofs found

- Status is not what protects the money.  `SETTLED` and `REFUNDED` can be
  overwritten, by exactly the blind writes that
  `Races.FinalStatusIsLostExactlyToABlindWrite` lists.  The QUEUED mark that follows
  a publication is one, and needs no second message, retry or admin
  (`LateMarks.LateMarkOverwritesSettled`).  With fresh requests only a late `FAILED`
  is left, and it does happen to either status
  (`Races.DuplicateMessageCanOverwriteSettled`, `Witnesses.RefundedCanBeOverwritten`).
  The unique ledger key still refuses a second credit or a refund
  (`Races.CreditedIsNeverPaidOutAgain`).
- Clean handovers alone do not leave one worker per remittance, contrary to the
  comment at backend/worker/settlement_worker.py:87-91.  While one worker settles a
  remittance, runs that publish nothing beside a live message let a second one in if
  and only if a second message about it is live already
  (`SoleMessages.SecondWorkerExactlyWithSecondMessage`).
- Without clean handovers a paid-in remittance can lose its last message while
  `SETTLING` (`Races.CleanHandoverIsNeeded`), at exactly the steps
  `Races.TakeoverIsLostExactlyByLosingTheMessage` names, and then nothing ever
  reaches it (`Races.StrandedForever`).
- The reconciliation of docs/technical-specification.md:818-821, pool equals the
  sum of balances, fails whenever a cash-out is open, a cash-out fee was kept, or
  a payment landed without being credited, and, as long as a burn that raised did
  not land, holds exactly otherwise (`Reconciliation.PoolCoversEveryClaim`).  Each of
  the three happens (`Witnesses.PoolCanDifferFromTheBalances`).
- A burn that raised after landing is refunded all the same, at
  backend/worker/settlement_worker.py:387-399, and the net it burned is missing from
  the pool from then on.  The exact equation counts it
  (`Reconciliation.PoolReconcilesExactly`); the pool covers every claim exactly while
  what was so lost is no more than fees and uncredited payments left in it
  (`Reconciliation.PoolCoversClaimsExactlyWhen`), and it can fall short of the
  balances (`Witnesses.PoolCanFallShort`).
- A settlement interrupted between payment and ledger write is paid again by
  whoever takes its message over, any number of times
  (`Repayments.PaymentsAreUnbounded`); it is still credited at most once.  Once a
  credited remittance is claimed again no interruption is needed: every takeover
  whose payment validates pays again, and never acks
  (`Repayments.CreditedIsPaidAtEveryTakeover`).
- A payment can also go out twice with no requeue, takeover or interruption, by a
  late QUEUED mark and a repeated confirmation
  (`LateMarks.LateMarkCanRepeatThePayment`).  Counting such late commits bounds the
  payments of every run (`Submissions.SubmissionsAreBounded`).
- With fresh requests a cash-out left `PROCESSING` by a dead worker stays so for
  good (`CashOuts.ABurnersDeathIsFinal`), and so does one whose payout rounds to
  zero, which half a cent's does: its tokens are burned and nothing is paid
  (`CashOuts.LandedBurnCompletesExactlyWhenItPaysOut`,
  `FeeLaws.PayoutIsZeroExactlyBelowOneCent`, `Witnesses.DustIsBurnedForNothing`).
- Every cash-out stays all or nothing through a step if and only if the step is no
  approval or rejection that comes too late for its cash-out
  (`CashOuts.StaysAllOrNothingExactlyWhen`), and an outcome, once reached, is left
  only by such a commit or by a landed burn paying out what one had refunded
  (`CashOuts.OutcomeIsLostExactlyWhen`).  Both kinds of late commit cost money: a
  rejection refunds a cash-out that was paid out
  (`CashOutRaces.AtomicRejectionIsNeeded`), an approval burns it and pays it a second
  time (`CashOutRaces.AtomicApprovalIsNeeded`).
- A remittance already there comes to count for more against its sender's limits at
  exactly two kinds of step: its REFUNDED status is overwritten, or it is confirmed
  after it expired (`LimitRaces.CountRisesExactlyWhen`).  A late failure over a refund
  can so carry a sender over both limits (`Witnesses.LateFailureCanExceedALimit`).
- Recording a failure leaves the row unfailed when the session had read `FAILED`
  and the row was requeued since (`Failures.FailEndsFailedExactlyWhen`,
  `Witnesses.FailureCanLeaveARowWaiting`).
- A cash-out key is unique over all users, not per user as its description says:
  another user's request under the same key is refused
  (`Idempotency.LaterRequestsReplay`).
- Converting by division and then rounding is exact below 2 * 10^17 cents and
  not just above (`FeeLaws.TokensAreTheExactFloor`,
  `FeeLaws.TokensCanOvershootAboveTheLimit`).
- Splitting a send never gains, at any percentages and any rate, exactly when the
  fixed fee is at least 1.4999 cents (`FeeLaws.SplittingNeverGainsExactlyWhen`).
- A positive exchange rate below half a millionth is quantised to zero
  (`FxRates.TinyRatesRoundToZero`).

## Model

| member | source | states |
|---|---|---|
| SettlementSafety.NeverCreditedTwiceNorRefundedToo | backend/app/models/wallet.py:113-127 | in every interleaving, with no assumption, the log holds at most one INCOMING/SUCCESS entry for a remittance, to anyone and of any amount, and it pays the recipient the tokens or the sender the rand; SETTLED and REFUNDED are backed by theirs, and a credit by a payment that landed |
| Payments.EveryEntryFollowsItsRow | backend/app/services/ledger.py:118-196 | in every run, with no assumption, each entry names a remittance or a cash-out and takes its wallet, currency and amount from that row: tokens for its recipient, rand for its sender, tokens or the payout for its user |
| Payments.FinalStatusPaidItsParty | backend/app/services/cashin_cashout_service.py:289-302 | in every run SETTLED has its recipient's tokens and its sender's rand leg in the log, REFUNDED its sender's rand |
| SettlementSafety.LogReplaysToEveryBalance | backend/app/services/ledger.py:118-196 | after any run, folding the entry log gives every balance exactly |
| SettlementSafety.LogIsAppendOnly | backend/app/models/wallet.py:102-110 | no step of any run changes or drops a log entry |
| Bookkeeping.PostKeepsBooksAgreeing | backend/app/services/ledger.py:291-325 | a balance movement keeps the log replayable exactly if the replay rule counts its entry |
| Bookkeeping.RecordKeepsBooksAgreeing | backend/app/services/ledger.py:160-196 | an external record keeps the log replayable exactly if the replay rule skips its entry |
| Bookkeeping.PostMovesTotal | backend/app/services/ledger.py:303-313 | a movement changes what customers hold in its currency by its amount and in no other |
| Payments.MovementsAreExact | backend/app/services/ledger.py:291-325 | a credit or debit commits exactly if it is positive, covered and repeats no key; it appends its entry, moves that one balance by its amount, and no other |
| Payments.RecordsAreExact | backend/app/services/ledger.py:160-196 | an external record commits exactly if it is positive and repeats no key, and moves no balance |
| TableSafety.RecordSuccessIsSafe | backend/worker/settlement_worker.py:434-484 | a settlement that commits credits a remittance that was not credited, keeps keys unique, and backs its status, whatever else changed the row meanwhile |
| Payments.SettlementPaysTheRecipient | backend/worker/settlement_worker.py:434-484 | a settlement commits exactly if nobody was paid for the remittance yet; it puts the tokens on the recipient's balance and no other, notes the sender's rand, and writes the status |
| TableSafety.RecordFailureIsSafe | backend/worker/settlement_worker.py:512-527 | recording a failure keeps every table invariant |
| Payments.FailureIsShownToTheRecipient | backend/worker/settlement_worker.py:512-527 | a failed entry names the recipient and the tokens they did not get, and moves no balance |
| TableSafety.RefundIsSafe | backend/app/services/cashin_cashout_service.py:295-305 | a refund that commits leaves its remittance refunded and not credited |
| Payments.RefundPaysTheSender | backend/app/services/cashin_cashout_service.py:289-302 | a refund commits exactly if nobody was paid yet; its entry gives the sender back the rand they sent, outside every balance |
| TableSafety.OpenCashOutIsSafe | backend/app/services/cashin_cashout_service.py:374-395 | opening a cash-out keeps every table invariant, balances non-negative included |
| Payments.RequestTakesTheGross | backend/app/services/cashin_cashout_service.py:374-395 | a cash-out request commits exactly if the tokens cover it and its key is free; it takes the gross from that balance alone, and its row carries every figure of its price |
| Payments.CompletionPaysThePayout | backend/app/services/cashin_cashout_service.py:466-480 | a completion commits exactly if there is something to pay; it puts the payout on the user's balance in the payout's currency, and on no other |
| Payments.ReversalReturnsTheGross | backend/app/services/cashin_cashout_service.py:506-519 | a reversal puts the whole gross back on the user's token balance, and on no other |
| Payments.QuoteStoresItsPrice | backend/app/routers/remittances.py:156-192 | a quote that commits adds one row with the parties and figures it was priced with, created now and expiring one lifetime after it was asked for |
| Funding.NothingSubmittedBeforeCashIn | backend/app/services/cashin_cashout_service.py:118-143 | in every run no payment is submitted before cash-in, and a row is QUOTED exactly while its cash-in is unconfirmed |
| Recovery.NoPaidInRemittanceIsStranded | backend/worker/settlement_worker.py:76-92 | with clean handovers a paid-in remittance is finished, waiting, failed, or SETTLING with the message of its latest claim unacked |
| Recovery.EveryPaidInRemittanceCanBeResolved | backend/app/services/cashin_cashout_service.py:223-230 | from every state reached with clean handovers some continuation credits the recipient or refunds the sender |
| OneWorker.StatusAndLedgerAgree | backend/worker/settlement_worker.py:442-484 | with fresh requests and one worker each, SETTLED exactly if credited and REFUNDED exactly if refunded |
| OneWorker.FinalStatusIsFinal | backend/worker/settlement_worker.py:572-600 | then neither status is ever left |
| Races.FinalStatusIsLostExactlyToABlindWrite | backend/app/services/cashin_cashout_service.py:203-216 | with no assumption, a step takes SETTLED or REFUNDED away if and only if it records a late failure, or commits a confirmation, a requeue or a QUEUED mark checked earlier |
| Races.FinalStatusIsLostExactlyToALateFailure | backend/worker/settlement_worker.py:509-527 | with fresh requests if and only if it is another handler recording its failure |
| LateMarks.LateMarkOverwritesSettled | backend/app/routers/remittances.py:267-269 | a run with one message, one handler and every other assumption kept settles and credits a remittance that the late mark then makes QUEUED |
| Races.CreditedIsNeverPaidOutAgain | backend/app/models/wallet.py:114-127 | a credited remittance can be neither refunded nor credited again, whatever its status says |
| Races.StrandedForever | backend/worker/settlement_worker.py:81-85 | a SETTLING remittance with no message, handler or request left stays that way in every run |
| Races.TakeoverIsLostExactlyByLosingTheMessage | backend/worker/settlement_worker.py:79-92 | with no assumption, a remittance that could be taken over stops being so if and only if the message holding it is acked, or it is claimed through a message acked away before |
| Races.CleanHandoverIsNeeded | backend/worker/settlement_worker.py:87-92 | a run that is clean in every other way strands a paid-in remittance |
| SoleMessages.SoleMessageMeansOneWorker | backend/worker/settlement_worker.py:87-91 | in a state reached with clean handovers, a remittance with one live message is claimed beside no other worker |
| SoleMessages.SoleMessagesMeanOneWorker | backend/worker/settlement_worker.py:87-91 | so a whole run with clean handovers that publishes only for remittances without a live message has one worker each |
| SoleMessages.SecondWorkerExactlyWithSecondMessage | backend/worker/settlement_worker.py:76-92 | while a worker settles a remittance, runs with clean handovers that publish nothing beside a live message can put a second worker beside it if and only if a second message about it is live already |
| SoleMessages.StatusAndLedgerAgreeWhenWellRun | backend/worker/settlement_worker.py:442-484 | in such runs with fresh requests, SETTLED exactly if credited and REFUNDED exactly if refunded |
| SoleMessages.FinalStatusIsFinalWhenWellRun | backend/worker/settlement_worker.py:572-600 | and neither status is ever left |
| SoleMessages.UsageRisesOnlyByAQuoteWhenWellRun | backend/app/services/limits_service.py:135-172 | and no step but a new quote raises a sender's totals |
| SoleMessages.NoSenderExceedsALimitWhenWellRun | backend/app/services/limits_service.py:188-212 | and no sender is ever beyond a limit |
| Races.DuplicateMessageCanOverwriteSettled | backend/worker/settlement_worker.py:87-91 | a run with clean handovers and fresh requests leaves a credited remittance FAILED |
| Witnesses.RefundedCanBeOverwritten | backend/worker/settlement_worker.py:509-527 | a run with clean handovers and fresh requests leaves a refunded remittance FAILED |
| CashOutRaces.AtomicRejectionIsNeeded | backend/app/services/cashin_cashout_service.py:506-519 | any approved cash-out with a positive payout and a waiting handler can be burned, paid out and refunded if a rejection may commit on a stale read |
| CashOutRaces.AtomicApprovalIsNeeded | backend/app/services/cashin_cashout_service.py:417-424 | any requested cash-out with a positive payout can be burned twice and paid out twice if an approval may commit on a stale read |
| Submissions.EveryClaimIsAccountedFor | backend/worker/settlement_worker.py:271-328 | in every run, with no assumption, successful claims equal payments submitted, plus claims that ended before one, plus handlers that may still submit |
| Submissions.SubmissionsAreBounded | backend/worker/settlement_worker.py:571-600 | in every run, with no assumption, payments and forgone claims are at most one together, plus one per requeue, per claim taken over, and per confirmation or QUEUED mark whose checks no longer hold as it commits |
| Submissions.FreshRequestsRepeatNothing | backend/worker/settlement_worker.py:571-600 | with fresh requests the last term is nothing |
| LateMarks.LateMarkCanRepeatThePayment | backend/app/services/cashin_cashout_service.py:118-122 | a run with no requeue, no takeover and one worker lands two payments, and leaves a credited remittance SETTLING with its message unacked |
| Repayments.PaymentsAreUnbounded | backend/worker/settlement_worker.py:210-226 | from any SETTLING state reached with clean handovers, and for every n, a run with fresh requests lands n more payments and credits nothing: the takeover term of the bound is needed |
| Repayments.CreditedIsPaidAtEveryTakeover | backend/worker/settlement_worker.py:434-492 | for every n, n uninterrupted takeovers of a credited SETTLING remittance whose payments validate land n more payments, change no table, and leave the message unacked |
| CashOuts.EveryCashOutIsAllOrNothing | backend/worker/settlement_worker.py:360-432 | with fresh cash-out requests, whatever remittance requests do, a cash-out is burned at most once, its status decides exactly which entries the log holds for it, COMPLETED means the burn landed and, if a burn that raised did not land, FAILED that it did not |
| Payments.CashOutEntriesAreTheRows | backend/app/services/cashin_cashout_service.py:466-480 | so the entry a COMPLETED cash-out points at pays its user the payout in the payout's currency, a FAILED one has the gross given back, and each points at the debit of its gross |
| CashOuts.StaysAllOrNothingExactlyWhen | backend/app/services/cashin_cashout_service.py:406-424 | a step keeps every cash-out so if and only if an approval or rejection it commits finds its cash-out unclaimed, or claimed by a handler that is gone with no burn the outcome would contradict |
| CashOuts.OutcomeIsLostExactlyWhen | backend/app/services/cashin_cashout_service.py:483-524 | with no assumption, COMPLETED or FAILED is left if and only if an approval of it commits, or a rejection of a COMPLETED one, or a landed burn with a positive payout on a FAILED one |
| CashOuts.AbandonedForever | backend/worker/settlement_worker.py:363-380 | with fresh cash-out requests a PROCESSING cash-out no handler is at work on is never completed, refunded or burned again |
| CashOuts.ABurnersDeathIsFinal | backend/worker/settlement_worker.py:363-400 | a worker dying between claim and outcome leaves its cash-out so |
| CashOuts.LandedBurnCompletesExactlyWhenItPaysOut | backend/app/services/cashin_cashout_service.py:466-480 | a landed burn completes if and only if its payout is positive; otherwise nothing commits |
| Witnesses.DustIsBurnedForNothing | backend/app/services/fee_service.py:204-221 | half a cent is priced, and a run with every assumption kept debits it, burns it, pays nothing and abandons it |
| Witnesses.SmallQuoteIsPriced | backend/app/services/fee_service.py:120-175 | the transfer all these runs make is one the quotation prices, token for token |
| Reconciliation.CreditedTokensAreConserved | backend/app/services/ledger.py:303-325 | with fresh cash-out requests, whatever remittance requests do, tokens credited by settlements equal all balances plus the gross of all cash-outs not FAILED |
| Reconciliation.PoolReconcilesExactly | backend/app/services/xrpl_service.py:217-225 | with fresh cash-out requests, the pool's gain plus the net of burned but refunded cash-outs is balances + unburned open cash-outs + fees of burned ones + landed but uncredited payments; the second term is nothing if a burn that raised did not land |
| Reconciliation.PoolCoversClaimsExactlyWhen | backend/worker/settlement_worker.py:387-399 | so it covers every claim exactly if burned but refunded cash-outs come to no more than fees and uncredited payments |
| Witnesses.PoolCanFallShort | backend/worker/settlement_worker.py:387-399 | a run with every other assumption kept refunds a burn that landed and leaves the pool below the balances |
| Reconciliation.PoolCoversEveryClaim | docs/technical-specification.md:818-821 | if a burn that raised did not land it always covers every claim, and equals the balances alone exactly when the other three are zero row by row |
| Witnesses.PoolCanDifferFromTheBalances | docs/technical-specification.md:818-821 | three runs with every assumption kept reach a pool that differs from the balances, one by each of the three |
| Limits.DayStartIsTheLastMidnight | backend/app/services/limits_service.py:100-112 | the day window opens at the last midnight at UTC+2 |
| Limits.LiveExactlyWhileFundable | backend/app/models/remittance.py:139-154 | an unfunded quote counts against the limit exactly while it could still be funded |
| Limits.TotalsFallWithTime | backend/app/services/limits_service.py:143-172 | time alone never raises a sender's daily or monthly total |
| Windows.TotalsCoverTheirWindows | backend/app/services/limits_service.py:135-172 | the two totals are exactly the rand a sender has paid in and not got back, or promised by an open quote, since the last South African midnight and since the first of its month |
| Windows.PaidInCountsExactlySince | backend/app/services/limits_service.py:100-112 | a paid-in, unrefunded remittance counts in a window exactly if it was created since that moment |
| Windows.RefusalNamesItsWindow | backend/app/services/limits_service.py:188-212 | a refusal names the day exactly if the day is over, the month exactly if only the month is |
| Calendar.FirstOfMonthExactly | backend/app/services/limits_service.py:109-112 | the month window opens at midnight on the first of the one Gregorian month the day falls in |
| Calendar.MonthsMakeACalendar | backend/app/services/limits_service.py:109-112 | these months meet what the theorems about limits ask of a calendar |
| Calendar.MonthsAreShort | backend/app/services/limits_service.py:109-112 | the window opens at a midnight no later than, and less than 31 days before, the day's own |
| Calendar.LeapFebruary | backend/app/services/limits_service.py:109-112 | the last of February 2024 belongs to the month opened on the first, the next day to its own |
| LimitSafety.QuoteCommitsWithinLimits | backend/app/routers/remittances.py:156-192 | whatever the first check saw and however old its clock, a quote commits exactly if both totals can take it as of when it asked, and leaves its sender within both limits now |
| Windows.QuoteCommitsExactlyWhenItFits | backend/app/routers/remittances.py:156-192 | said in rand: a quote commits exactly if what its sender has committed since both windows began, as of when it asked, leaves room for it |
| LimitSafety.ExpiredQuotesStayPut | backend/app/services/cashin_cashout_service.py:128-131 | with fresh requests no step touches a quote that has expired |
| LimitSafety.CountNeverRises | backend/app/services/limits_service.py:145-167 | with one worker each no step makes an existing row count for more |
| LimitSafety.UsageRisesOnlyByAQuote | backend/app/services/limits_service.py:135-172 | so no step but a new quote raises a sender's totals |
| LimitSafety.NoSenderEverExceedsALimit | backend/app/services/limits_service.py:188-212 | in every such run every sender is within the daily and the monthly limit at every moment |
| Windows.NoSenderSpendsBeyondALimit | backend/app/services/limits_service.py:188-212 | so the rand a sender has paid in since midnight, and since the first of the month, and not got back, is within the two limits at every moment |
| Windows.NoSenderSpendsBeyondALimitWhenWellRun | backend/app/services/limits_service.py:188-212 | and so in runs where one worker each follows from how messages are published |
| LimitSafety.PaidInRowsCountUntilRefunded | backend/app/models/remittance.py:71-93 | a paid-in row counts its full amount in every status until REFUNDED |
| LimitRaces.CountRisesExactlyWhen | backend/app/services/limits_service.py:145-167 | with no assumption, a row in the window comes to count for more if and only if its REFUNDED status is overwritten or it is confirmed after it expired |
| LimitRaces.CountRisesExactlyByALateFailure | backend/worker/settlement_worker.py:509-527 | with fresh requests if and only if a handler records its failure over its refund |
| Witnesses.LateFailureCanExceedALimit | backend/app/services/limits_service.py:188-212 | a run with clean handovers and fresh requests takes a sender beyond both limits |
| Failures.UninterruptedHandlerFails | backend/worker/settlement_worker.py:509-550 | a handler left alone commits exactly what the two attempts of a failure commit |
| Failures.FailIsTotal | backend/worker/settlement_worker.py:512-542 | a failure is always recorded, moves no balance and adds at most the one failed entry |
| Failures.FailEndsFailedExactlyWhen | backend/worker/settlement_worker.py:513-542 | it ends FAILED exactly if the session had not loaded FAILED, or the row still is, or a failed entry it wants to note is already there |
| Witnesses.FailureCanLeaveARowWaiting | backend/worker/settlement_worker.py:512-527 | a run with clean handovers and fresh requests records a failure and leaves the row CASH_IN_CONFIRMED |
| Failures.FailIsIdempotent | backend/worker/settlement_worker.py:528-547 | a second failure changes nothing at all |
| Failures.SuccessIsStillPossible | backend/app/models/wallet.py:117-119 | a recorded failure neither forecloses nor enables a later success |
| Failures.AtMostOneFailedEntry | backend/worker/settlement_worker.py:529-532 | in every run two failed entries belong to two remittances |
| Idempotency.LaterRequestsReplay | backend/app/services/cashin_cashout_service.py:342-358 | once a key opened a cash-out its owner gets that row back, unchanged, at any later time and for any amount, and every other user is refused |
| Idempotency.EachKeyOpensOneCashOut | backend/app/models/remittance.py:224-225 | in every run a key opens at most one cash-out, and a replay after any continuation returns it |
| Idempotency.LosingRequestCommitsNothing | backend/app/services/cashin_cashout_service.py:378-395 | a request whose key is taken commits nothing; one that commits debits once and points at its debit |
| Decimals.DivideThenQuantizeDownIsExact | backend/app/services/fee_service.py:92-96 | a 28-digit division rounded down to six places is the exact floor below 2 * 10^21 |
| Decimals.DivideThenQuantizeHalfUpIsExact | backend/app/services/fee_service.py:170-172 | and rounded half up to six places it is the exact half-up rounding below 10^21 |
| Decimals.DivideKeeps28Digits | backend/app/services/fee_service.py:92-96 | a division is the nearest number of 28 significant digits to the quotient |
| Decimals.TiesGoToEven | backend/app/services/fee_service.py:92-96 | and of two equally near the even one |
| FeeLaws.TokensAreTheExactFloor | backend/app/services/fee_service.py:150-152 | the sender's net is never over-converted: tokens * rate <= net < (tokens + one millionth) * rate, below 2 * 10^17 cents |
| FeeLaws.TokensCanOvershootAboveTheLimit | backend/app/services/fee_service.py:92-96 | just above that bound a net exists that is over-converted by a millionth |
| FeeLaws.FeesAreRoundedTheirOwnWay | backend/app/services/fee_service.py:135-141 | fee and margin are the nearest cent, half up; the cash-out fee is rounded down and taken from the tokens, on products of at most 28 digits |
| FeeLaws.FeesAreExactBelowTheDigits | backend/app/services/fee_service.py:135-141 | with every operation rounded to 28 digits as in the source, the three fees are exactly those, while amount times rate (and fixed fee) stay below 28 digits |
| FeeLaws.EffectiveRateIsAtLeastMidMarket | backend/app/services/fee_service.py:170-172 | the all-in rate shown is never below mid-market, roundings included |
| FeeLaws.EffectiveRateIsTheNearestMillionth | backend/app/services/fee_service.py:170-172 | and is the nearest millionth, half up, to the send per token, for sends below 10^17 cents |
| FeeLaws.RoundTripNeverProfits | backend/app/services/fee_service.py:103-117 | quoting and cashing back out at one rate never profits, and loses less than the cash-out fee, a millionth and a cent beyond it |
| FeeLaws.RandPayoutIsTheExactFloor | backend/app/services/fee_service.py:110-117 | a rand payout is the exact floor to the cent |
| FeeLaws.PayoutIsTheExactFloor | backend/app/services/fee_service.py:103-117 | a priced payout is the whole net in tokens, its whole cents in dollars, and the whole cents it is worth at the rate in rand |
| FeeLaws.PayoutIsNeverWorthMoreThanTheNet | backend/app/services/fee_service.py:103-117 | quoted and cashed straight back out, in any currency, the payout is worth no more than the tokens, and they no more than the net sent |
| FeeLaws.CashOutPricedExactlyWhen | backend/app/services/fee_service.py:192-214 | a cash-out is priced exactly if it and the rate are positive, the currency is known and the fee is below 100% |
| FeeLaws.PayoutIsZeroExactlyBelowOneCent | backend/app/services/fee_service.py:204-221 | a priced cash-out pays nothing exactly if its net is worth less than one cent |
| FeeLaws.SplittingNeverGainsExactlyWhen | backend/app/services/fee_service.py:135-152 | over all sends, rates, payout currencies and percentages, no two sends receive more tokens than one combined send if and only if the fixed fee is at least 1.4999 cents |
| FeeLaws.SplittingNeverGains | backend/app/services/fee_service.py:135-152 | from that fee on the two nets never exceed the combined net, nor the two token amounts the combined one |
| FeeLaws.SplittingGains | backend/app/services/fee_service.py:88-89 | at every smaller fee two priced sends of R100.01 net a cent more apart, and receive more tokens |
| FeeLaws.SendingMoreNeverCostsMoreThanACent | backend/app/services/fee_service.py:135-143 | a larger send never nets more than a cent less while the rates total at most 100%, on products of at most 28 digits |
| FeeLaws.SendingMoreCanCostACent | backend/app/services/fee_service.py:135-143 | and that cent can be lost |
| FeeLaws.PricedExactlyWhen | backend/app/services/fee_service.py:130-157 | below 2 * 10^17 cents and a 100% cash-out fee, a send is priced exactly if its net buys one millionth of a token and the payout currency is known |
| FxRates.CacheIsTheLatestFetch | backend/app/services/fx_rate_service.py:112-138 | over every history of looks, refreshes and resets, the cache holds the latest successful fetch since the last reset, at that fetch's age |
| FxRates.ServedRatesAreRecentEnough | backend/app/services/fx_rate_service.py:141-167 | a served rate is fresh, younger than the window, or at most the ceiling's age; it is refused exactly otherwise, and a failed refresh leaves the cache alone |
| FxRates.AnswersAreServedExactly | backend/app/services/fx_rate_service.py:64-67 | an answer is accepted exactly if it is a positive number of at most 28 digits in millionths, as the nearest millionth to it, half up |
| FxRates.ServedRatesAreTheProvidersOwn | backend/app/services/fx_rate_service.py:112-167 | every served rate is the nearest millionth to the answer of the refresh that last succeeded, of one of the three ages |
| FxRates.TinyRatesRoundToZero | backend/app/services/fx_rate_service.py:64-67 | a positive rate is quantised to zero exactly below half a millionth |
| FxRates.RateCache.TryCached | backend/app/services/fx_rate_service.py:113-115 | the unlocked look serves exactly a rate younger than the window |
| FxRates.RateCache.RefreshLocked | backend/app/services/fx_rate_service.py:117-138 | the locked part serves what the history calls for, keeps the cache true to it, and changes it only to the nearest millionth of a usable answer |
| FxRates.RateCache.ApiRate | backend/app/services/fx_rate_service.py:112-167 | an uninterrupted lookup serves a recent enough rate, or fails on an unusable answer leaving the cache as it was |
| FxRates.RateCache.Clear | backend/app/services/fx_rate_service.py:202-205 | a reset forgets the rate |
| MoneyFormat.TrimCutsOnlySpaces | frontend/src/ui.jsx:30 | trimming cuts a stretch of spaces off either end and nothing else |
| MoneyFormat.ParseAcceptsExactlyDecimals | frontend/src/ui.jsx:31-35 | the pattern accepts exactly the plain decimals and reads each one way |
| MoneyFormat.OneExtraDigitDecides | frontend/src/ui.jsx:36-41 | rounding on one extra digit is exact half-away-from-zero rounding of the whole text |
| MoneyFormat.PrintedIsTheRoundedValue | frontend/src/ui.jsx:43-46 | the padded digits are that value, with the places asked for and no idle leading zero |
| MoneyFormat.Round | frontend/src/ui.jsx:29-47 | rounding text returns the exact rounding, or null for what is not a plain decimal |
| MoneyFormat.GroupJoinsTheOnlyGrouping | frontend/src/ui.jsx:49-51 | grouping is the one way to write the digits in threes after a first group of one to three |
| MoneyFormat.Decimal | frontend/src/ui.jsx:54-60 | null exactly for null, empty or malformed input, otherwise the rounded text |
| MoneyFormat.ShownReadsBackAsTheRounding | frontend/src/ui.jsx:25-60 | with separators stripped, what is shown parses back to exactly the rounded value, sign kept |
| LedgerService.Ledger.Credit | backend/app/services/ledger.py:118-135 | adds to a balance and writes its entry, or leaves the log as it was |
| LedgerService.Ledger.Debit | backend/app/services/ledger.py:137-158 | takes from a balance and writes its entry, or refuses rather than go negative |
| LedgerService.Ledger.RecordExternal | backend/app/services/ledger.py:160-196 | writes an entry and moves no balance |
| LedgerService.Ledger.Balance | backend/app/services/ledger.py:200-211 | zero for a currency never held |
| LedgerService.Ledger.LockedBalanceRow | backend/app/services/ledger.py:258-289 | the balance row, created at zero if there was none |
| LedgerService.Ledger.Move | backend/app/services/ledger.py:291-325 | as Credit and Debit; refused by the unique key, the balance has moved and the caller must roll back |
| LedgerService.Ledger.Write | backend/app/services/ledger.py:327-351 | appends the entry exactly if its key is free |
| QueueService.PicksAreUnique | backend/app/services/settlement_queue.py:142-193 | what a read or a takeover returns is determined: the oldest wanted entries up to the count |
| QueueService.SettlementQueue.Publish | backend/app/services/settlement_queue.py:94-109 | adds one settlement message |
| QueueService.SettlementQueue.PublishCashOut | backend/app/services/settlement_queue.py:111-125 | adds one burn message |
| QueueService.SettlementQueue.ReadNew | backend/app/services/settlement_queue.py:127-140 | hands over the next undelivered entry and makes it pending, or changes nothing |
| QueueService.SettlementQueue.ReadPending | backend/app/services/settlement_queue.py:142-156 | returns this consumer's oldest unacked entries and hands nothing over |
| QueueService.SettlementQueue.ReclaimStale | backend/app/services/settlement_queue.py:158-193 | takes over the oldest silent entries, whoever holds them, and no others |
| QueueService.SettlementQueue.Acknowledge | backend/app/services/settlement_queue.py:195-201 | removes one entry from the pending list |
| CashService.SimulateCashIn | backend/app/services/cashin_cashout_service.py:102-143 | refuses an unknown method, confirms exactly a live quote with a registered recipient, is a no-op on a confirmed one, refuses the rest unchanged |
| CashService.PublishSettlement | backend/app/services/cashin_cashout_service.py:194-213 | publishes exactly for a confirmed or queued row, and marks nothing |
| CashService.MarkQueued | backend/app/services/cashin_cashout_service.py:215-220 | marks the row QUEUED unless that is what was loaded, whatever the row has become |
| CashService.QueueForSettlement | backend/app/services/cashin_cashout_service.py:179-220 | uninterrupted, publishes and marks QUEUED, or does neither |
| CashService.RequeueFailed | backend/app/services/cashin_cashout_service.py:233-259 | returns exactly a paid-in FAILED row to CASH_IN_CONFIRMED |
| CashService.RefundFailed | backend/app/services/cashin_cashout_service.py:262-314 | refunds exactly a paid-in FAILED row whose key is free: its sender, its rand, no balance |
| CashService.RequestCashOut | backend/app/services/cashin_cashout_service.py:320-403 | replays a known key, refuses a payout in UCTUSD, else debits and opens the row behind the debit |
| CashService.Approve | backend/app/services/cashin_cashout_service.py:406-424 | REQUESTED to APPROVED and nothing else |
| CashService.QueueBurn | backend/app/services/cashin_cashout_service.py:427-452 | publishes the burn of an APPROVED cash-out only |
| CashService.Complete | backend/app/services/cashin_cashout_service.py:455-480 | credits the payout, in its currency, to its user and points at its entry |
| CashService.Reverse | backend/app/services/cashin_cashout_service.py:483-524 | gives the gross back to its user, in tokens, from the states allowed and from no other |
| Routers.Api.CheckAndPrice | backend/app/routers/remittances.py:105-154 | a quote request checks and prices without writing anything |
| Routers.Api.InsertQuote | backend/app/routers/remittances.py:156-192 | the insert, re-check and commit or rollback are the protocol's quote commit, whatever other requests committed in between |
| Routers.Api.PublishMessage | backend/app/routers/remittances.py:267-268 | the message goes out by the protocol's publish step, or nothing happens |
| Routers.Api.MarkPublished | backend/app/routers/remittances.py:268-269 | the mark commits by the protocol's commit step, whatever other requests and handlers committed since |
| Routers.Api.PublishConfirmed | backend/app/routers/remittances.py:267-288 | the two together, undone if the queue is down |
| Routers.Api.ConfirmCashInEndpoint | backend/app/routers/remittances.py:242-288 | two protocol requests in that order; succeeds exactly on a fundable or already confirmed row, which stays CASH_IN_CONFIRMED if the queue is down |
| Routers.Api.ConfirmZarPayment | backend/app/routers/admin.py:132-208 | as above for an admin, and requeues exactly a paid-in FAILED row |
| Routers.Api.RefundRemittance | backend/app/routers/admin.py:214-250 | the protocol's refund request, committed exactly if it is allowed |
| Routers.Api.CreateCashOut | backend/app/routers/wallet.py:90-133 | the protocol's cash-out request; a replay or a refusal leaves the system as it was |
| Routers.Api.ApproveCashOut | backend/app/routers/admin.py:276-315 | approves once, publishes every time, and answers success only with the message in the stream |
| Routers.Api.RejectCashOut | backend/app/routers/admin.py:319-346 | the protocol's rejection, allowed exactly from REQUESTED and APPROVED |
| Worker.HandlingIsAScript | backend/worker/settlement_worker.py:210-226 | handling a message is a fixed sequence of protocol steps, those of other branches being disabled |
| Outcomes.ClaimTakesExactly | backend/worker/settlement_worker.py:571-600 | a claim takes a row to SETTLING from CASH_IN_CONFIRMED or QUEUED, or from SETTLING by a message taken over, and from nothing else |
| Outcomes.NewMessagesNeverClaimSettling | backend/worker/settlement_worker.py:571-600 | a message read new leaves a SETTLING remittance as it is, and is acked |
| Outcomes.SettlementEndsExactly | backend/worker/settlement_worker.py:262-328 | uninterrupted, a validated payment nobody was paid for before credits the recipient and ends SETTLED; one somebody was paid for stays unacked; any other end is FAILED with no balance moved, shown once to a recipient who was found; the pool gains what landed |
| Outcomes.BurnEndsExactly | backend/worker/settlement_worker.py:353-416 | uninterrupted, a validated burn pays the payout in its currency and ends COMPLETED, or stays PROCESSING and unacked if there is nothing to pay; any other end gives the gross back; the pool loses what landed |
| Worker.SettlementWorker.ClaimRemittance | backend/worker/settlement_worker.py:571-600 | the compare-and-swap is the protocol's claim and succeeds exactly from CASH_IN_CONFIRMED and QUEUED, and from SETTLING if the message was taken over |
| Worker.SettlementWorker.RecordSettlement | backend/worker/settlement_worker.py:434-492 | success commits whole or not at all, whatever status was loaded |
| Worker.SettlementWorker.AttemptFailure | backend/worker/settlement_worker.py:512-527 | one attempt is the protocol's failure commit, whatever the row has become since it was loaded |
| Worker.SettlementWorker.Fail | backend/worker/settlement_worker.py:494-550 | uninterrupted, ends with the failure recorded through either path |
| Worker.SettlementWorker.Settle | backend/worker/settlement_worker.py:262-328 | is the protocol's settlement steps; skipped exactly if not claimable |
| Worker.SettlementWorker.ClaimCashOut | backend/worker/settlement_worker.py:360-380 | takes exactly an APPROVED cash-out to PROCESSING |
| Worker.SettlementWorker.BurnClaimedCashOut | backend/worker/settlement_worker.py:353-416 | is the protocol's burn steps; skipped exactly if not APPROVED |
| Worker.SettlementWorker.CompleteBurn | backend/worker/settlement_worker.py:401-416 | completes exactly if the payout is positive, else leaves the message unacked |
| Worker.SettlementWorker.FailBurn | backend/worker/settlement_worker.py:418-432 | refunds and fails a PROCESSING cash-out |
| Worker.SettlementWorker.Handle | backend/worker/settlement_worker.py:210-226 | is the protocol's handling of the message, acked exactly unless the ledger write was lost |
| Worker.SettlementWorker.HandleBatch | backend/worker/settlement_worker.py:193-200 | handles a batch in order, each message by its own steps |
| Worker.SettlementWorker.ReclaimAbandoned | backend/worker/settlement_worker.py:185-200 | takes over up to ten silent messages, then handles each as reclaimed |
| Worker.SettlementWorker.TakeNew | backend/worker/settlement_worker.py:174-175 | handles the next new message, or changes nothing |
| Worker.SettlementWorker.ReplayPending | backend/worker/settlement_worker.py:160-163 | replays this consumer's unacked messages as reclaimed |
| Worker.SettlementWorker.Run | backend/worker/settlement_worker.py:141-183 | the loop ends where protocol steps take it, takes one new message a round, and stops only between rounds |

## Left out

- Worker.SettlementWorker.Handle: is proved uninterrupted, because a method has one thread; other handlers and requests interleave with it only in `Protocol`, whose steps it takes.
- Worker.SettlementWorker.Settle: is proved uninterrupted from claim to outcome, for the same reason; its parts that commit, RecordSettlement and AttemptFailure, are proved for whatever the row has become.
- Worker.SettlementWorker.BurnClaimedCashOut: likewise uninterrupted, with CompleteBurn and FailBurn proved apart.
- Worker.SettlementWorker.Fail: likewise, as the composition of two AttemptFailure calls.
- Routers.Api.PublishConfirmed: likewise, as the composition of PublishMessage and MarkPublished.
- Routers.Api.ConfirmCashInEndpoint: does not model who owns the remittance, and runs its two commits with nothing in between.
- Routers.Api.ConfirmZarPayment: runs its two commits with nothing in between, and takes the default method as given.
- Worker.SettlementWorker.Run: does not model errors raised by Redis or the database inside the loop, which the source logs and waits out; in `Protocol` they are a crash of the handler.
- QueueService.SettlementQueue.ReclaimStale: takes the set of silent messages as a parameter instead of measuring idle milliseconds, and ignores the server's bound on how far one scan looks and the fallback for servers without the command.
- LedgerService.Ledger.LockedBalanceRow: takes the row lock for granted, so the race for a first row and its savepoint are not modelled.
- LedgerService.Ledger.Move: identifies a wallet with its user, so the creation of wallet rows under a savepoint is not modelled.
- FxRates.RateCache.ApiRate: is proved with no other thread between its two halves; the lemmas about histories cover every interleaving.
- FeeLaws.FeesAreRoundedTheirOwnWay: fees are exact integers, which the source's are as long as amount times rate has at most 28 digits (FeesAreExactBelowTheDigits); the rounding of larger products is not modelled.
- FeeLaws.SendingMoreNeverCostsMoreThanACent: likewise on exact products only.
- Liveness of the worker: nothing is proved to happen, only that it still can; a PROCESSING cash-out is not promised to recover, because it does not.
- Signing, trust lines, sequence numbers and retries on the XRP Ledger: a call lands or not and answers or raises.
- `Decimal` overflow in a cash-out is an error without the endpoint's own message.
- Transaction hashes, treasury batch ids, who approved or rejected, failure reasons and timestamps other than creation, expiry and cash-in.
- Users, KYC, beneficiaries and e-mail matching: whether the recipient resolves is a parameter, and one verified limit pair applies.
- Currency codes as free text: they are an enumeration, with an unknown code where the source can meet one.
- Column widths: amounts are unbounded, apart from the bounds stated in the fee theorems.
- Month boundaries are any calendar in the theorems about limits; `Calendar` supplies the Gregorian one.
- The mock and table rate sources and the walk through the provider's JSON.
- The front end's currency prefixes and every screen.
- Malformed stream messages, which the worker drops; group creation and the stream's length metric.
