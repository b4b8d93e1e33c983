# Savings-and-credit platform: verified model

A Dafny model of the money core of a multi-tenant savings-and-credit (SACCO) platform and of the
background machines around it, with proofs about whole runs: every interleaving of service calls,
replays, reused idempotency keys, aborted steps, failed savepoints and partial jobs.

Money is an integer number of ten-thousandths, the unit of the `Numeric(19, 4)` columns. A service call is one
atomic step: it commits or leaves the tables as they were. A broken unique, check or foreign-key
constraint is an `IntegrityError`, which aborts; a `ValueError` is raised before anything is written.
Clocks, failures of foreign calls, publish results and which savepoints fail are parameters, so every
theorem holds for all of them. Each service is a class whose methods change its tables step by step and
are proved equal to a function on the tables' values; the lemmas are about those functions.

| file | what it holds |
|---|---|
| `Ledger.dfy` | double-entry posting, balances, the trial balance |
| `Savings.dfy` | deposits, withdrawals, system debits and credits; the sub-ledger against the ledger |
| `Fees.dfy` | assessment, savings collection, retries, manual collection; receivables against the ledger |
| `Approvals.dfy` | maker-checker quorum, payload round trips, tracing money back to its request |
| `Tenant.dfy` | all of the above in one run: `TenantAgreesIff` is the main theorem of the money core |
| `Notifications.dfy` | dispatch, retry, resend and preference changes of one event |
| `Search.dfy` | watermark reconcile and delete-sweep, in phases, interleaved with writes |
| `Outbox.dfy` | relay ticks, backoff and dead-lettering |
| `Penalties.dfy` | the credit module's fee-event consumer and its clamped counters |
| `Accruals.dfy` | the interest accrual beat |
| `MonthSeries.dfy` | dashboard month series walked backwards from a total |
| `Schedule.dfy` | yearly cycles of scheduled fees |
| `Sums.dfy`, `Text.dfy` | sums over rows; identifiers, decimals and keys as text |

`dafny verify dfyconfig.toml` checks the project.

## Where the code does not keep a promise

Each of these has the exact condition under which the code does keep it, proved in both directions, and,
where the condition does not show it by itself, a lemma that the failing case arises.

- Sub-ledger agreement. A posting under a savings journal key by anyone else makes the next operation under
  that key move the member's balance and not the ledger; keys of manual entries are not prefixed, so
  nothing prevents it. A call keeps agreement if and only if it meets the guard `Keeps`, and a run agrees
  throughout if and only if all its calls do (`Savings.KeepsIsExact`, `Savings.TakenKeyBreaksAgreement`,
  `Savings.SquattedKeyBreaksAgreement`, `Savings.SubLedgerAgrees`).
- No account below zero. `execute_withdraw` does not look at the balance again, and an
  `on_insufficient_funds` string outside the documented three debits in full. Balances stay at or above
  zero if and only if the balance covers each of those (`Savings.WithdrawalOverdraws`,
  `Savings.UndocumentedModeOverdraws`, `Savings.NeverBelowZero`).
- Receivables. The key of a manually assessed fee leaves out the target type, so a second target type gets
  an assessment without a journal entry. Ledger and outstanding fees agree throughout if and only if no
  call slips, by its keys or by its accounts (`Fees.ApiKeyLosesEntry`, `Fees.AssessAgreesIff`,
  `Fees.StepDrift`, `Fees.ReceivablesAgree`).
- Paid means paid. A savings row already under a collection's debit key is taken for the debit, and the fee
  is marked paid though no money moves. Paid fees are covered throughout if and only if no row so taken
  falls short of what is owed (`Fees.SquattedDebitMarksPaid`, `Fees.StepPaidIff`, `Fees.PaidMeansPaid`).
- Collected at most what is owed. `auto_collect` asks for the whole amount each time, or takes a row already
  under its debit key, and `collect` never compares its amount with what is left. No fee is collected beyond
  its amount if and only if no committed assessment, retry or manual collection takes more than is left
  (`Fees.OvercollectsIff`, `Fees.CollectOvershootsIff`, `Fees.RetryTakesAllAgain`, `Fees.CollectedWithinAmount`).
- A fee's status. A collection from savings marks the fee by its own debit, not by what was collected: one
  that covers what is left without being the whole fee leaves a covered fee partially paid, and the retry
  debits it again. Statuses tell what was collected if and only if no assessment or retry does that, or takes
  for its debit a row that falls short (`Fees.CoveredStaysOpen`, `Fees.StatusTellsIff`).
- Executed withdrawals pay. Submission looks for its key among withdrawal requests, execution among all
  savings rows, and a request submitted through the general approvals endpoint is not looked up at all: a
  withdrawal under a used key is marked executed and pays nothing, and one submitted twice is paid once and
  executed twice. Rows and executed requests are one to one if and only if each execution finds its key
  unused (`Approvals.WithdrawalUnderUsedKeyPaysNothing`, `Approvals.TwoRequestsOneRow`,
  `Approvals.ExecutedWithdrawalPaysIff`, `Approvals.WithdrawalsTracedIff`).
- Executed requests post. Submitting a manual entry does not look for its key, and a second request under it
  is executed and posts nothing; a withdrawal whose journal key is taken pays without an entry. An executed
  request for either has added its entry if and only if it found its keys unused
  (`Approvals.ReusedEntryKeyPostsNothing`, `Approvals.ExecutedEntryPostsIff`, `Approvals.EntriesTracedIff`).
- Deliveries. Nothing keeps a channel from being listed twice, and each mention is sent on its own. Such a
  channel gets two rows with one number, and four rows without a resend, past the cap of three; and when the
  two sends end differently the event is marked partial though every channel was reached, which only a resend
  can change. Numbering, the cap, and a truthful status each hold, over every run, if and only if no channel
  but the in-app feed is listed twice (`Notifications.RepeatBreaksNumbering`,
  `Notifications.OrderlyIffUnrepeated`, `Notifications.RepeatBreaksCap`, `Notifications.CapIffUnrepeated`,
  `Notifications.RepeatMisreports`, `Notifications.TruthfulIffUnrepeated`). The retry cycle stops either way,
  whatever becomes of each send (`Notifications.CycleTerminates`).
- Fee events. Fifty refused events at the head of the queue, malformed or lowering a counter below zero, hold
  back every later one, for good; nothing else does (`Penalties.PollStandsStill`, `Penalties.QueueStallsIff`).
- Interest accruals. Accrual keys are not reserved: an entry of somebody else's under one moves the
  ledger, and the beat then passes over that installment. Counters and ledger agree throughout if and only if
  nobody else debits a loan's receivable under its accrual keys (`Accruals.StrayEntryBreaksAgreement`,
  `Accruals.AccrualsAgree`).
- Yearly cycles. A fee scheduled for 29 February can never be assessed, and the error it raises lies outside
  the savepoint, so it ends the tenant's whole job (`Schedule.CycleExistsIff`,
  `Schedule.ScheduleJob.AssessScheduled`). A schedule that is moved charges days twice if and only if a cycle
  starts before the latest one ended (`Schedule.MovedScheduleOverlaps`, `Schedule.OverlapIff`,
  `Schedule.CyclesNeverOverlap`). On the anniversary the member is not yet due
  (`Schedule.TodayIsChargedIff`).

## Model

| member | source | states |
|---|---|---|
| `Ledger.PostKeeps` | app/modules/ledger/service.py:76-145 | posting only appends, one entry per key, keeps every entry balanced and storable, and repeating it changes nothing |
| `Ledger.TrialBalance` | app/modules/ledger/service.py:219-240 | asset and expense balances sum to liability, equity and income balances |
| `Ledger.ReachableLedger` | app/modules/ledger/models.py:103-153 | in every reachable ledger the trial balance holds, keys are unique, entries are append-only and a replay changes nothing |
| `Ledger.PostAnswers` | app/modules/ledger/service.py:96-145 | under a new key an entry is posted if and only if it has two lines or more, equal totals, and on every line one amount from 1 to 10^19 - 1 ten-thousandths, zero on the other side and an account of the chart; which error it is otherwise; a used key posts nothing |
| `Ledger.ReachableLines` | app/modules/ledger/models.py:147-152 | in every reachable ledger every line of every entry is so |
| `Ledger.CreateAccountAnswers` | app/modules/ledger/service.py:25-57 | an account is added if and only if no other has its code or its id |
| `Ledger.BalanceByKind` | app/modules/ledger/service.py:219-240 | assets and expenses carry debits less credits, liabilities, equity and income the reverse |
| `Ledger.LedgerService.PostJournalEntry` | app/modules/ledger/service.py:96-145 | the loop over lines posts exactly when the key is new and the lines are balanced and storable, and otherwise changes nothing |
| `Ledger.LedgerService.GetAccountBalance` | app/modules/ledger/service.py:219-240 | debits less credits for an asset or expense account, credits less debits for any other, or an error for an unknown account |
| `Savings.GlKeyInjective` | app/modules/savings/service.py:318-323 | no two operations and no two client keys share a journal key |
| `Savings.StepGap` | app/modules/savings/service.py:288-353 | each step changes ledger-minus-members by exactly its leak, whoever uses whose keys; replays and aborts by nothing |
| `Savings.KeepsIsExact` | app/modules/savings/service.py:445-645 | a committed call of any kind keeps the two in agreement if and only if it meets its guard on accounts and keys |
| `Savings.NeutralIsExact` | app/modules/savings/service.py:445-645 | where every savings entry has its row, the guard is on the accounts alone |
| `Savings.SubLedgerAgrees` | app/modules/savings/service.py:140-169 | over every run, by anybody under any keys: after every call the ledger balance of a liability is the sum of `get_balance` over its accounts, if and only if each committed call meets its guard |
| `Savings.ApartRunsKeep` | app/modules/savings/service.py:318-323 | callers that keep out of the savings keys and name neutral accounts always meet the guards |
| `Savings.TakenKeyBreaksAgreement` | app/modules/ledger/service.py:96-104 | a deposit, credit, debit or withdrawal against its own contra account keeps agreement if and only if nobody has posted under its journal key |
| `Savings.SquattedKeyBreaksAgreement` | app/modules/ledger/service.py:96-104 | a foreign entry under a savings key makes the next deposit with it drift by its amount |
| `Savings.NeverBelowZero` | app/modules/savings/service.py:498-574 | over every run no account is ever below zero if and only if each committed withdrawal and undocumented debit finds a balance that covers it |
| `Savings.WithdrawalOverdraws` | app/modules/savings/executors.py:42-87 | an executed withdrawal leaves a balance of at least zero if and only if the balance still covers it |
| `Savings.UndocumentedModeOverdraws` | app/modules/savings/service.py:498-520 | any other mode string debits in full whatever the balance |
| `Savings.AllowNegativeRefused` | app/modules/savings/service.py:472-478 | `allow_negative` is refused for every module |
| `Savings.PartialDebit` | app/modules/savings/service.py:498-574 | debited plus shortfall is what was asked, and debited is min(max(balance, 0), asked) |
| `Savings.DebitAnswers` | app/modules/savings/service.py:472-574 | `fail` is refused exactly when the balance does not cover the amount and otherwise reports all of it, `partial` takes what is there; the row, the entry and its legs, and when a constraint fails |
| `Savings.DebitReplays` | app/modules/savings/service.py:480-496 | a replayed debit reports the row found, whatever is asked now |
| `Savings.DepositAnswers` | app/modules/savings/service.py:305-355 | replay, unknown account, and exactly when and as what row and entry a deposit is written |
| `Savings.SystemCreditAnswers` | app/modules/savings/service.py:590-645 | the same for a system credit |
| `Savings.WithdrawAnswers` | app/modules/savings/executors.py:42-94 | the same for an executed withdrawal, whose guard is any row under its key |
| `Savings.OpenAnswers` | app/modules/savings/service.py:80-119 | an account is opened if and only if the member has none of the product and its id is unused |
| `Savings.AccountsOnePerProduct` | app/modules/savings/models.py:106 | in every run no member holds two accounts of one product |
| `Savings.RowEffect` | app/modules/savings/service.py:140-201 | what one more row of each kind does to its account, to any other and to the headline total |
| `Savings.ExternalRowsDoNotCount` | app/modules/savings/service.py:140-201 | appended external rows leave every balance and the headline total alone |
| `Savings.HeadlineTotal` | app/modules/savings/service.py:171-201 | the one-pass total over all rows is the sum of the per-account balances |
| `Savings.SavingsService.GetBalance` | app/modules/savings/service.py:140-169 | credits minus debits of the account's rows, or an error for an unknown account |
| `Savings.SavingsService.MakeDeposit` | app/modules/savings/service.py:288-355 | guard, entry, row, in that order, is one step of the books or no change |
| `Savings.SavingsService.MakeSystemDebit` | app/modules/savings/service.py:445-574 | the new tables and the reported debited, requested and shortfall amounts, on every mode and on replay |
| `Savings.SavingsService.MakeSystemCredit` | app/modules/savings/service.py:576-645 | one step of the books or no change |
| `Savings.SavingsService.ExecuteWithdraw` | app/modules/savings/executors.py:18-94 | the approved withdrawal's entry and row, without a balance check |
| `Fees.StepDrift` | app/modules/fees/service.py:42-128 | each step moves receivable against outstanding fees by exactly what its keys kept it from posting and what other uses of the account post |
| `Fees.DisciplinedNeverSlip` | app/modules/fees/beat.py:104-115 | keys that keep to their module and name their charge, on accounts used for one thing each, never slip |
| `Fees.ReceivablesAgree` | app/modules/fees/service.py:161-319 | over every run, under any keys and on any accounts: after every call a receivable's ledger balance is what was assessed on it minus what was collected, if and only if no call slips |
| `Fees.PaidMeansPaid` | app/modules/fees/service.py:186-224 | over every run, under any keys: after every call each fee marked paid is covered by its collections, if and only if no collection takes for its debit a row that falls short |
| `Fees.PaidIsForever` | app/modules/fees/service.py:186-319 | a paid fee stays paid in every continuation, and what was collected on it never shrinks |
| `Fees.ApartNeverShort` | app/modules/fees/service.py:186-224 | callers that keep out of the fee keys never cause a short payment |
| `Fees.SchedKeyNamesCharge` | app/modules/fees/beat.py:104-115 | scheduled keys determine fee type, member and period |
| `Fees.AssessAgreesIff` | app/modules/fees/service.py:42-128 | a fresh assessment keeps its receivable in agreement if and only if what its inline collection leaves unposted makes up for what its own entry does; with key spaces apart, if and only if its journal key is unused |
| `Fees.ApiKeyLosesEntry` | app/modules/fees/api.py:163-172 | the same target under a second target type commits an assessment with no entry, and the receivable falls behind |
| `Fees.OvercollectsIff` | app/modules/fees/service.py:186-224 | a collection from savings stays within the amount if and only if what it takes, debit or replayed row, is no more than what is left |
| `Fees.CollectOvershootsIff` | app/modules/fees/service.py:244-318 | a manual collection stays within the amount if and only if its own amount is no more than what is left |
| `Fees.RetryTakesAllAgain` | app/modules/fees/beat.py:149-187 | a partly paid fee retried once the member can pay it all is collected in full again |
| `Fees.CollectedWithinAmount` | app/modules/fees/service.py:161-319 | over every run, under any keys: no fee is collected beyond its amount, after any call, if and only if no committed assessment, retry or manual collection takes more than is left |
| `Fees.StatusTellsIff` | app/modules/fees/service.py:186-316 | over every run, under any keys: each fee is paid exactly when its collections cover it, partially paid when they fall short and assessed when there are none, after every call, if and only if no assessment or retry mismarks its fee; manual collections never do |
| `Fees.CoveredStaysOpen` | app/modules/fees/service.py:210-224 | a balance that covers what is left but not the whole fee leaves a covered fee partially paid, open to the next retry |
| `Fees.ChargedAndCollectedOnce` | app/modules/fees/models.py:98-136 | in every run nothing is charged twice for one period and no key collects twice |
| `Fees.CollectAnswers` | app/modules/fees/service.py:244-319 | exactly when a manual collection is taken; the fee is paid exactly when what was collected covers it; the collection row, the entry, and nothing else |
| `Fees.CollectRefuses` | app/modules/fees/service.py:244-262 | a used key changes nothing, an unknown fee is an error |
| `Fees.AssessingAnswers` | app/modules/fees/service.py:55-108 | exactly when an assessment is recorded, with which row and which entry |
| `Fees.AssessAnswers` | app/modules/fees/service.py:42-128 | a charge already assessed is left alone; only fee types that collect go on to collect |
| `Fees.AutoCollectAnswers` | app/modules/fees/service.py:161-231 | the member's first account is debited for its balance up to the whole fee; paid if that is the whole fee, partially paid if not; nothing happens when it is empty |
| `Fees.RetryAnswers` | app/modules/fees/beat.py:149-187 | the retry collects on a fee exactly when it is open, its type collects and its receivable exists, under a key of its id and day |
| `Fees.CatalogAnswers` | app/modules/fees/api.py:66-116 | fee types are added once and patched in amount and collection, never to a negative amount |
| `Fees.SquattedDebitMarksPaid` | app/modules/savings/service.py:480-496 | a savings row already under a collection's debit key marks the fee paid and moves no money; the mark is true if and only if the row's amount with earlier collections covers the fee |
| `Fees.FeeService.BeginAssessment` | app/modules/fees/service.py:55-108 | accounts, entry and row, or the error that rolls the call back |
| `Fees.FeeService.AssessFee` | app/modules/fees/service.py:25-128 | lookup, entry, row and inline collection are one step of the fee state or no change |
| `Fees.FeeService.AutoCollectFor` | app/modules/fees/service.py:161-231 | debit, collection row and status, or the error that rolls the savepoint back |
| `Fees.FeeService.CollectManually` | app/modules/fees/service.py:233-319 | guards, entry, collection row and status are one step or no change |
| `Fees.FeeService.TotalCollected` | app/modules/fees/service.py:294-298 | the sum of the collections recorded against one assessment |
| `Fees.FeeService.RetryPartial` | app/modules/fees/beat.py:131-198 | the daily retry of each open assessment in its own savepoint, in the order loaded; the counts are the savepoints committed, the fees newly paid, and the difference |
| `Approvals.LinesRoundTrip` | app/modules/ledger/executors.py:33-48 | the executor sees the accounts and amounts submitted, after printing and parsing |
| `Approvals.WithdrawalRoundTrip` | app/modules/savings/executors.py:18-41 | the same for a withdrawal |
| `Approvals.AcceptedEntryBalances` | app/modules/ledger/service.py:163-217 | an entry accepted at submission never fails the balance check at execution, in any later state |
| `Approvals.SubmitAnswers` | app/modules/maker_checker/service.py:51-95 | a request is registered if and only if its operation has an executor and its id is unused |
| `Approvals.AskWithdrawalAnswers` | app/modules/savings/service.py:357-431 | under a key no withdrawal request carries, the request is added if and only if the account exists, the balance covers the amount and leaves the minimum, and the id is unused |
| `Approvals.WithdrawalsWereCovered` | app/modules/savings/service.py:390-431 | over every run each withdrawal request was covered, minimum included, when `submit_withdrawal` added it, or came through the general endpoint |
| `Approvals.AskEntryAnswers` | app/modules/ledger/service.py:163-217 | a manual entry is asked for if and only if it has two lines or more and equal totals |
| `Approvals.ApproveAnswers` | app/modules/maker_checker/service.py:97-138 | when a vote is taken, and what it leaves below and at quorum for each outcome of the executor |
| `Approvals.RejectAnswers` | app/modules/maker_checker/service.py:140-174 | when a refusal is taken, and that one ends the request |
| `Approvals.CancelAnswers` | app/modules/maker_checker/service.py:176-194 | only its own maker cancels a request, while it is pending and nobody has voted |
| `Approvals.ExpireAnswers` | app/modules/maker_checker/service.py:273-327 | the expiry job changes exactly the pending requests whose expiry has passed, and only their status |
| `Approvals.StatusMovesIf` | app/modules/maker_checker/service.py:97-206 | a request leaves pending only, and for each status only by whom that status belongs to |
| `Approvals.DecidedIsFinal` | app/modules/maker_checker/service.py:196-206 | only a pending request ever changes |
| `Approvals.QuorumGatesExecution` | app/modules/maker_checker/service.py:97-206 | the executor runs at most once, only with enough approvals by distinct users other than the maker; `approved` is never seen between calls; cancelled requests have no votes; pending ones fewer than required and no rejection |
| `Approvals.MoneyIsTraced` | app/modules/maker_checker/service.py:237-270 | over every run each withdrawal row traces to an executed request for it, and each entry was added by approving an executed request that calls for exactly it, or is another module's, or a savings operation's own with its row, amount and legs; requests have a quorum of non-makers |
| `Approvals.WithdrawalsTracedIff` | app/modules/maker_checker/service.py:237-270 | over every run, whichever endpoint submitted: withdrawal rows and executed withdrawal requests are one to one after every call, if and only if each execution finds its key unused |
| `Approvals.ExecutedWithdrawalPaysIff` | app/modules/savings/executors.py:42-87 | a withdrawal request that ends executed adds exactly its row if no savings row had its key, with its entry if nobody had posted under its journal key, and nothing otherwise |
| `Approvals.WithdrawalUnderUsedKeyPaysNothing` | app/modules/savings/service.py:376-388 | a withdrawal asked for under a deposit's key is accepted, approved, marked executed, and pays nothing |
| `Approvals.TwoRequestsOneRow` | app/modules/maker_checker/service.py:51-95 | one withdrawal submitted twice through the general endpoint is paid once and executed twice |
| `Approvals.EntriesTracedIff` | app/modules/maker_checker/service.py:237-270 | over every run, under any keys: an entry added by approval is the one its executed request calls for, a withdrawal's on its own liability and payment accounts; no request adds two; and an executed request has added its entry if and only if it ran under unused keys |
| `Approvals.OwnKeysEnterFresh` | app/modules/ledger/service.py:163-217 | manual entries asked for under a key each, outside the modules' keys, always run under an unused key |
| `Approvals.OwnKeysAllEnter` | app/modules/ledger/service.py:163-217 | so each such entry that is executed is in the ledger as submitted |
| `Approvals.ExecutedEntryPostsIff` | app/modules/ledger/executors.py:33-48 | an entry request that ends executed adds exactly its entry if its key was unused, and nothing otherwise |
| `Approvals.ReusedEntryKeyPostsNothing` | app/modules/ledger/service.py:209-215 | a request under a key already in the ledger is marked executed and posts nothing |
| `Approvals.ApprovalService.SubmitRequest` | app/modules/maker_checker/service.py:51-95 | registers a pending request, or refuses an unknown operation |
| `Approvals.ApprovalService.SubmitWithdrawal` | app/modules/savings/service.py:357-431 | key guard, balance and minimum checks, then a request with the printed payload |
| `Approvals.ApprovalService.SubmitManualEntry` | app/modules/ledger/service.py:163-217 | refuses unbalanced or short entries, then a request with the printed payload |
| `Approvals.ApprovalService.ApproveRequest` | app/modules/maker_checker/service.py:97-138 | maker and repeat votes refused; at quorum the executor runs; a broken constraint undoes the whole call |
| `Approvals.ApprovalService.Conclude` | app/modules/maker_checker/service.py:237-270 | executed, or execution_failed with savings and ledger unchanged |
| `Approvals.ApprovalService.RejectRequest` | app/modules/maker_checker/service.py:140-174 | one refusal by a non-maker ends the request |
| `Approvals.ApprovalService.CancelRequest` | app/modules/maker_checker/service.py:176-194 | only the maker, only while nobody has voted |
| `Approvals.ApprovalService.RunExpiry` | app/modules/maker_checker/service.py:273-326 | exactly the pending requests past their expiry become expired |
| `Tenant.FeeOpMoves` | app/modules/fees/service.py:161-231 | every fee operation is, to the books, exactly the run of its moves: a posting, a partial savings debit, or both |
| `Tenant.TenantAgreesIff` | app/modules/savings/service.py:288-645 | over every interleaving of all modules, under any keys and on any accounts: after every call savings liability, fee receivable, paid fees and withdrawals with their requests all agree, if and only if every call is clean |
| `Tenant.CallAgreesIff` | app/modules/fees/service.py:161-319 | one call keeps the four agreements if and only if its moves leak nothing, its fee step neither slips nor pays short, and an executed withdrawal finds its key unused |
| `Tenant.TenantBooksAgree` | app/modules/fees/beat.py:104-115 | the disciplined case: with key spaces and accounts apart everything agrees, the trial balance included, and each withdrawal row has exactly one executed request |
| `Text.DecimalRoundTrip` | app/modules/ledger/executors.py:33-48 | parsing a printed amount gives back the same decimal, trailing zeros and sign included |
| `Text.ParseReads` | app/modules/ledger/executors.py:33-48 | a number text is worth its digits in base ten, its places after the point the scale |
| `Text.MoneyIsExact` | app/modules/ledger/models.py:130-135 | amounts of up to four places are exact in ten-thousandths |
| `Text.UuidDateKeyInjective` | app/modules/fees/beat.py:181 | keys of an id and a date determine both |
| `Notifications.DispatchKeeps` | app/core/notifications/dispatcher.py:38-97 | a dispatch keeps each channel's rows orderly and its status truthful |
| `Notifications.DeliveriesAreOrderly` | app/core/notifications/dispatcher.py:29-100 | without repeated channels, over every run each channel's rows are numbered 1..k, only the last can be sent, and partial or failed means a failed channel with no success |
| `Notifications.TruthfulIffUnrepeated` | app/core/notifications/dispatcher.py:67-100 | partial and failed mean a failed channel with no success, over every run and whatever becomes of each send, if and only if no channel but the in-app feed is listed twice |
| `Notifications.RepeatMisreports` | app/core/notifications/dispatcher.py:93-100 | any channel listed twice can leave an event partial though each of its channels was reached, for good unless it is resent |
| `Notifications.CompleteMeansReached` | app/core/notifications/dispatcher.py:64-100 | an event marked sent reached every channel dispatched to; without repeats it is marked sent exactly then |
| `Notifications.DispatchAnswers` | app/core/notifications/dispatcher.py:64-100 | sent when every place passes, failed when there are places and none does, partial in between |
| `Notifications.DispatchWaits` | app/core/notifications/beat.py:70-84 | an event is dispatched exactly when it is queued and its time has come |
| `Notifications.OrderlyIffUnrepeated` | app/core/notifications/dispatcher.py:38-97 | rows are orderly for every channel over every run if and only if no channel but the in-app feed is listed twice |
| `Notifications.RepeatBreaksNumbering` | app/core/notifications/dispatcher.py:38-97 | any channel listed twice gets two rows with one number on the first dispatch |
| `Notifications.SendAll` | app/core/notifications/dispatcher.py:67-91 | the loop over channels, with one outcome for each send, adds exactly the rows of one dispatch and counts its failures |
| `Notifications.AttemptCap` | app/core/notifications/beat.py:119-135 | without repeated channels no channel gets more than three rows plus one per resend |
| `Notifications.CapIffUnrepeated` | app/core/notifications/beat.py:119-135 | that cap holds for every channel over every run if and only if no channel but the in-app feed is listed twice |
| `Notifications.RepeatBreaksCap` | app/core/notifications/beat.py:119-135 | any channel listed twice gets four rows from two dispatches and one retry |
| `Notifications.CycleTerminates` | app/core/notifications/beat.py:89-137 | without resends the number of effective dispatches and requeues is bounded, whatever the channels, whatever becomes of each send and whatever preferences do |
| `Notifications.RetryAnswers` | app/core/notifications/beat.py:109-135 | an event is requeued if and only if it is partial or failed, some channel is failing, no failing one has a third attempt, and every delivery is over five minutes old |
| `Notifications.ResendAnswers` | app/core/notifications/api.py:406-419 | a resend requeues any event that is not queued, for now |
| `Notifications.NotificationEvent.DispatchEvent` | app/core/notifications/dispatcher.py:29-100 | one dispatch's rows and status, each send ending its own way |
| `Notifications.NotificationEvent.RetryEvent` | app/core/notifications/beat.py:109-135 | a partial or failed event below the cap and past the backoff is requeued, any other left alone |
| `Notifications.NotificationEvent.ResendEvent` | app/core/notifications/api.py:406-419 | any event not queued is queued again |
| `Notifications.RetryForSchema` | app/core/notifications/beat.py:89-137 | every claimed event is retried once, and the count is of those requeued |
| `Search.DocIdInjective` | app/core/search/documents.py:7-8 | documents of different records never share an id, within or across tenants |
| `Search.FinishKeeps` | app/core/search/reconcile.py:152-185 | the watermark may advance: rows written since the read carry stamps at or past it |
| `Search.WatermarkIsSound` | app/core/search/reconcile.py:120-185 | for every interleaving, each live row stamped below the watermark is indexed as it is, and no watermark moves back |
| `Search.IndexedAsItIs` | app/core/search/reconcile.py:177-185 | in every reachable world a live row below the mark has a document under its own id with its own content and scope |
| `Search.DocIdReads` | app/core/search/documents.py:7-8 | a platform record goes by its id, a tenant record by schema, colon and id |
| `Search.ReconcileThenSweepIsExact` | app/core/search/sweep.py:114-129 | a finished reconcile then a sweep with no write to the scope since the read leaves its index equal to its source, other scopes running freely |
| `Search.ScopesAreIsolated` | app/core/search/sweep.py:79-111 | nothing done for one scope changes another scope's documents or watermark |
| `Search.SweepSparesLiveRows` | app/core/search/sweep.py:114-129 | a sweep's delete never hits the document of a live row, whatever lands between its two reads |
| `Search.HighestStamp` | app/core/search/reconcile.py:64-68 | the highest stamp among the rows, or the current mark |
| `Search.SearchStore.ReconcileEntity` | app/core/search/reconcile.py:152-185 | a finished run leaves every live row of the scope in the index with its own content and scope and moves the mark to the highest stamp read; a failed one keeps the marks; it finishes when the bulk call takes every row |
| `Search.SearchStore.ReadEsIds` | app/core/search/sweep.py:79-88 | the ids of exactly the scope's documents |
| `Search.SearchStore.SweepEntity` | app/core/search/sweep.py:60-129 | a finished sweep deletes exactly the documents of the scope without a source row; after a finished reconcile that makes the index exact |
| `Outbox.TriedOncePerTick` | app/core/outbox/worker.py:46-127 | a row tried in a tick is not eligible again in it, because `now` is frozen |
| `Outbox.NineDelays` | app/core/outbox/worker.py:33-35 | the nine delays before the tenth try add up to 11010 seconds |
| `Outbox.DelaysDouble` | app/core/outbox/worker.py:33-35 | the wait starts at 30 seconds, doubles, and stays at an hour |
| `Outbox.RelayLifecycle` | app/core/outbox/worker.py:64-112 | attempts counts the tries, published and dead exclude each other, dead means exactly ten failures over at least 11010 seconds |
| `Outbox.SettledIsFinal` | app/core/outbox/worker.py:56-67 | published and dead rows are never touched again |
| `Outbox.OutboxTable.SelectBatch` | app/core/outbox/worker.py:56-76 | up to a hundred eligible rows, oldest first, short only when it holds them all |
| `Outbox.OutboxTable.Relay` | app/core/outbox/worker.py:38-127 | the drain loop ends, tries each row at most once and at most 1099 in all, only rows unpublished, not dead and past their wait, and all of those when it reports drained; it stops short only past a thousand rows or the deadline |
| `Penalties.EventsApplyOnce` | app/modules/credit/consumer.py:57-151 | under any failures and re-polls each event takes effect at most once; from kind and payload alone, paid penalties grow by the collections and accrued penalties are S_n - min(0, S_0, ..., S_n) of assessments less collections, so never negative and never below assessed minus collected |
| `Penalties.EventsApplyInTheEnd` | app/modules/credit/consumer.py:46-100 | when all that waits is payable, as many clean polls as batches waiting leave every handled event processed, each once |
| `Penalties.BatchProcesses` | app/modules/credit/consumer.py:60-88 | a clean batch processes every payable event in it, whatever is refused beside it |
| `Penalties.QueueStallsIff` | app/modules/credit/consumer.py:33-43 | some event can still get through, by some later run, unless the oldest fifty waiting events are all refused, and then none ever does |
| `Penalties.ProcessedIsInert` | app/modules/credit/consumer.py:66-76 | once processed, an event changes nothing in any later state |
| `Penalties.AssessmentAccrues` | app/modules/credit/consumer.py:111-118 | an assessment of a loan adds its amount to accrued, or is refused when that would be negative; paid stays |
| `Penalties.CollectionPays` | app/modules/credit/consumer.py:130-143 | a collection takes its amount off accrued, stopping at zero, and adds it to paid |
| `Penalties.OtherEvents` | app/modules/credit/consumer.py:111-151 | other targets and loans not booked change no counter; malformed payloads are refused |
| `Penalties.FetchedAreOldest` | app/modules/credit/consumer.py:33-43 | a poll passes over a waiting event only for fifty older ones |
| `Penalties.PollStandsStill` | app/modules/credit/consumer.py:33-43 | a poll without outside failures changes nothing if and only if each of the oldest fifty waiting events is refused |
| `Penalties.ClampedWalk` | app/modules/credit/consumer.py:136-141 | a walk clamped at zero is the plain sum less its low point |
| `Penalties.CreditConsumer.HandleEvent` | app/modules/credit/consumer.py:103-151 | the UPDATE of each event type, missing loans and malformed payloads included |
| `Penalties.CreditConsumer.ProcessTenantEvents` | app/modules/credit/consumer.py:46-100 | one savepoint per fetched event, and the count of events processed |
| `Accruals.AccrualsAgree` | app/modules/credit/beat.py:61-126 | over every run, under any keys: after every step each loan's accrued and paid interest is what was debited to its receivable under its accrual keys, if and only if nobody else ever debits it there |
| `Accruals.AccrualsRise` | app/modules/credit/beat.py:61-126 | from any state, accrued and paid interest rise by exactly that debit less what somebody else debited there |
| `Accruals.AccruedAtMostOnce` | app/modules/credit/beat.py:74-83 | in every run no (loan, due date) has two accrual entries |
| `Accruals.StrayEntryBreaksAgreement` | app/modules/credit/beat.py:79-83 | a foreign entry under an accrual key moves the ledger, and the beat then passes over that installment |
| `Accruals.ReservedRunsAreClean` | app/modules/credit/beat.py:75 | runs in which nobody else posts under the accrual prefix are clean |
| `Accruals.KeyOwner` | app/modules/credit/beat.py:75 | an accrual key belongs to one loan |
| `Accruals.SecondBeatIsIdle` | app/modules/credit/beat.py:74-118 | a beat without failures posts every due, open, interest-bearing installment of eligible loans, and a second one changes nothing |
| `Accruals.BeatPostsOnlyDue` | app/modules/credit/beat.py:50-110 | only open, due, interest-bearing installments of eligible loans get an entry: a debit to the receivable and a credit to income of the interest, under loan and due date |
| `Accruals.AccrualJob.AccrueForTenant` | app/modules/credit/beat.py:30-130 | the nested loops are the fold over due installments, and the count is the number of entries posted |
| `MonthSeries.KeyTextInjective` | app/core/month_series.py:22 | different months never print alike, so grouping by text is grouping by month |
| `MonthSeries.MonthKeys` | app/core/month_series.py:14-27 | the loop gives the n months up to today's, oldest first |
| `MonthSeries.AsCumulative` | app/core/month_series.py:37-56 | point i is the total less every later month's movement |
| `MonthSeries.FlowIsDifference` | app/core/month_series.py:30-34 | the flow series is the month-on-month difference of the cumulative one |
| `MonthSeries.MovementOfMonth` | app/modules/savings/service.py:203-237 | the grouped movement of a month is the net of exactly its rows |
| `MonthSeries.SavingsTrend` | app/modules/dashboard/service.py:42-54 | on every history, point k is the direct signed sum of all rows to that month's end if and only if rows dated after the current month net to zero |
| `MonthSeries.PlainTrend` | app/modules/dashboard/service.py:42-54 | with nothing dated ahead every point is the balance at its month's end |
| `MonthSeries.TrendEndsAtHeadline` | app/modules/dashboard/service.py:42-54 | the newest point is the sum of the per-account balances |
| `MonthSeries.ReadKeyRoundTrip` | app/modules/dashboard/service.py:32-33 | reading back a key's text gives its year and month |
| `MonthSeries.ComputeTrend` | app/modules/dashboard/service.py:29-54 | the trend of the window, or an error when the window starts before year 1 |
| `Schedule.CycleExistsIff` | app/modules/fees/beat.py:98-102 | a cycle can be computed if and only if the configured day exists in every year and the years are in range |
| `Schedule.CycleHoldsToday` | app/modules/fees/beat.py:98-102 | the cycle computed holds today and is one whole year |
| `Schedule.AssessAnswers` | app/modules/fees/beat.py:82-115 | a member is charged the cycle holding today unless the latest period has not ended before today or the savepoint fails |
| `Schedule.LeapDay` | app/modules/fees/beat.py:98-102 | 29 February exists in years divisible by 4, centuries only when divisible by 400 |
| `Schedule.CyclesNeverOverlap` | app/modules/fees/beat.py:82-115 | over every sequence of runs, with any days, failures and moves of the schedule: no day is charged twice if and only if each cycle charged starts no earlier than the latest one ended |
| `Schedule.UnmovedRunsTile` | app/modules/fees/beat.py:98-115 | a schedule that stays put charges whole yearly cycles in order, and each starts clear |
| `Schedule.OverlapIff` | app/modules/fees/beat.py:98-102 | after a period has ended, the next cycle overlaps it if and only if its day falls before that end |
| `Schedule.TodayIsChargedIff` | app/modules/fees/beat.py:24-30 | after a clean run the last cycle holds today if and only if today is not the end of the one before and not ahead of it |
| `Schedule.MovedScheduleOverlaps` | app/modules/fees/beat.py:66-68 | the case arises: from 1 January to 1 July, half a year is charged twice |
| `Schedule.ScheduleJob.AssessScheduled` | app/modules/fees/beat.py:81-126 | every member's turn and the number charged, or nothing for anyone when a date does not exist |

## Left out

- Decimal text: exponents, `NaN`, `Infinity`, underscores and amounts of more than four decimal places; plain notation only. Balance is checked on unrounded values, so amounts must fit the column.
- UUID text in other than the 36-character form.
- Savings products, `is_active` flags, member status, guarantor liens (`get_available_balance`) and listing queries: they would add only easy members.
- `record_external_credit` and `record_external_debit`: their ledger entry is posted by other code and `get_balance` does not count the rows.
- Executors of other modules: in the approval machine they end well, raise or break a constraint, and what they post is a separate ledger move.
- Waived and cancelled fee statuses: modelled as refused by collection; nothing in the modelled code sets them.
- Fee assessment triggered by domain events, and fee types other than those of members in the schedule.
- Lost updates inside one approval call: `_get_pending` takes no row lock, and approval calls are taken as serialised.
- SKIP LOCKED, isolation levels and the claim of at most 100 events per dispatch beat; only the search jobs are split into phases.
- Search record ids are never used again after a delete (they are random UUIDs), stamps never run backwards, and each entity has its own index, so one entity is modelled with its scopes.
- Notification templates, providers, purge and feeds; the result of each send is a parameter.
- Dead-letter alerts, metrics, logs and audit rows.
- Loan disbursement, repayment, schedules, write-off and restructuring; repayments appear only as what they take off a loan's counters.
- Rate limiting, authentication, the HTTP layer and the portal.
- Tenant.TenantBooksAgree: asks for key spaces and accounts apart; `Tenant.TenantAgreesIff` asks for neither.
- Fee assessments with a null `period_end`, which only the API can create: the schedule beat would find such a member due; every period here has an end.
- MonthSeries.ComputeTrend: models the savings part of the dashboard; member and loan figures are not part of this model.
