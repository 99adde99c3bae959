# Verified models of the server's stateful cores

This project models the stateful cores of the Go backend and proves properties of
them over all inputs, all interleavings and all runs.

- **Task manager** (`TaskModel`, `TaskSafety`, `TaskRuns`, `TaskRestart`, `TaskEarly`,
  `TaskContents`, `TaskManager`).
  A step relation over the task table, the live workers, the semaphore, cancels in
  flight and the stages of start-up; every goroutine is cut at its accesses to the
  table, writes may fail, and tasks may be submitted before Start, during it and after.
  The class `Manager` carries out the steps in place.
- **Orders, payments, credits** (`Orders`, `Credits`, `Payments`, `PaymentRuns`,
  `PaymentTheorems`, `PaymentInvoices`, `PaymentWebhooks`, `PaymentOutcomes`). Every
  handler is one step; webhooks come any number of times and in any order, an order may
  have many payments, every write may fail, and so may every look-up by intent ID.
  `Mode.direct` is the configuration without an event publisher, in which the payment domain itself
  settles the order and adds the credits.
- **Routing** (`Routing`, `RoutingTheorems`, `RoutingWinners`, `StrategyChain`, `Router`,
  `AiRouting`).
  The strategy chain on candidate objects, the filters and scores it computes, and a
  reference on sets of models that says who survives and who can win. float64 is real,
  and random draws are arbitrary numbers in [0, 0.1).
- **Account pool** (`AccountPool`, `AccountOverlap`). Which account serves a request and
  what its outcome does to the account's health, for requests one after the other and for
  requests that overlap.
- **Quota** (`Quota`, `QuotaTheorems`, `QuotaRequests`). Cached counters with keys per
  month and day and with expiry, against the usage records.
- **Teams and invitations** (`Collaboration`, `CollaborationDomain`,
  `CollaborationRuns`, `CollaborationTheorems`, `CollaborationFates`).
- **String translators** (`Slugs`, `GinPath`).

In most areas there are three layers: functions on values that say what one operation
does (`...Spec` or `...Step`), classes whose methods update fields in place and are
proved to do exactly that, and lemmas about the functions over whole runs. The methods'
contracts also spell out the resulting rows, and the theorems on outcomes (`RowsAreExplained`,
`ReachedIff`, `FateIff`, `MembersIff` and others) say when something becomes true in terms
of events, port answers and rows, without those functions. What a port answers (whether a write succeeds, what a query finds, what a provider or a clock says)
is a parameter of the operation.

## Assumptions

- Tasks: executors change a task only through the progress callback, and call it only
  until they return (a call after that would write the copy of the task over the final
  row); external submissions carry a non-empty external ID; Start is called once per
  manager.
- Payments: intent IDs of providers are unique and not empty; a query by intent ID that
  does not fail finds a matching row if there is one; the payment store's update inserts a
  missing row, and new IDs are fresh.
- Routing: the candidates given to a chain are different objects. The theorems about
  scores take windows and costs that are not negative.
- Quota: stated with each theorem.
- Teams: new IDs are fresh, and the query by token answers truthfully.

## Where the code and its surroundings disagree

- The transition table of orders and the written requirements for orders allow failed to
  pending; no operation performs it, and `RowsOnlyProceed` shows that it never happens.
- `IncrementUsage` of the PostgreSQL adapter
  (`internal/adapter/outbound/postgres/ai_account.go:91-103`) clears the failure count of
  an account, so a limit of five failing requests "whatever successes come between" is
  false of the wired code. `FailuresAddUp` accounts for every failing request,
  `AtMostFiveFailures` says exactly when the limit holds, and `SuccessesLiftTheBound` gives
  runs with any number of failures. With up to m requests in flight on an account the
  limit is 4 + m (`OverlappingFailures`), and it is reached (`BoundIsReached`).
- The fallback query of the quota check
  (`internal/adapter/outbound/postgres/usage_record.go:108-116`) does not filter by
  success, the one in `internal/infra/persistence/billing_repo.go:148-159` does.
  `FallbackCountsFailures` gives the difference.
- The cached token counter expires a day after the period's end. After that it no longer
  stands for the records of the period (`CachedTokensAreTheSum`, `ExpiredCounterForgets`).
- A success webhook is meant to be handled once, but the handler answers a failing look-up
  of the payment with a new record, although there may be one
  (`internal/domain/payment/domain.go:260-277`). An intent can then have two succeeded
  records, both published (`FailedLookUpChargesTwice`); `RedeliveryIff` and
  `ChargedOnceIff` say exactly when.
- A native success notification whose payment write fails is lost for good, because its
  event is stored first (`StoredEventsAreFinal`). A customer who pays an intent that a
  later one has replaced pays for nothing (`ReplacedIntentIsDead`).
- The handlers never invoice an order twice, whatever fails (`HandlersInvoiceOnce`). A
  separate call of GenerateInvoice, which the program does not make, does so exactly if its
  look-up fails (`OneInvoiceIff`, `SecondInvoiceIsReached`).
- Refunds are issued twice when the payment row cannot be updated
  (`LostUpdateRefundsTwice`).
- A task that is submitted before Start has listed the table can come to two workers, in
  exactly the cases of `SecondWorkerIff`.

## Model

| member | source | states |
|---|---|---|
| TaskRuns.ReachableStates | internal/infra/task/manager.go:132-464 | in every state reachable under any interleaving, failed writes, stops, restarts and crashes: the semaphore counts the executors holding a slot and stays within MaxConcurrent, no task has two workers unless it was submitted too early, a task with an external ID is never pending, a completed row has progress 100 and a completion time, PollStatus is called at most MaxPollAttempts times |
| TaskEarly.SecondWorkerIff | internal/infra/task/manager.go:132-309 | a submission can come to two live workers, in some continuation of the run, if and only if it is made before Start's first listing, or, of an external task, before the second |
| TaskRuns.TimelyRunsAreUnique | internal/infra/task/manager.go:89-309 | in runs without such submissions no task ever has two workers |
| TaskContents.RowsAreExplained | internal/infra/task/manager.go:132-486 | over every run from the empty table the rows are exactly those of the successful submissions; each has the type and external ID of its submission and an output that a callback or poll of its own gave; a completed external row has the output of a poll that reported its completion; a completed row has an executor or poller; a failed row has a code that fits; a cancelled row was written by a cancel |
| TaskContents.OriginsNeverChange | internal/infra/task/manager.go:132-190 | from then on, through restarts and crashes, the type and external ID of a row never change |
| TaskSafety.InvStep | internal/infra/task/manager.go:132-486 | the invariant behind it is kept by every single step |
| TaskRuns.FinishedStaysFinished | internal/infra/task/manager.go:207-227 | a terminal row without writers never changes again, in any run, except into the cancelled copy of a cancel that had read it earlier |
| TaskRuns.LastWriteIsFinal | internal/infra/task/manager.go:330-378 | the write with which a worker ends leaves a terminal row that nothing but such a cancel can change |
| TaskRuns.ExitIsFinal | internal/infra/task/manager.go:312-464 | if the store writes of a run succeed, a worker that has left other than by stop or crash has left a row that stays terminal, unless its task was submitted too early |
| TaskRuns.ExitsAreFinal | internal/infra/task/manager.go:312-464 | the same of every run from the empty table |
| TaskRestart.RestartLaunchesOnce | internal/infra/task/manager.go:257-309 | Start on a fresh manager over any reachable table, interleaved with workers, cancels and submissions, launches every non-terminal task exactly once, but for failed resets and tasks that cancels finish meanwhile, and no other task, but for external ones submitted too early |
| TaskRestart.RestartIsExact | internal/infra/task/manager.go:257-309 | without such disturbances: exactly once each, and none of the terminal ones, whatever happens to tasks submitted too early |
| TaskRestart.CancelIsFinalIff | internal/infra/task/manager.go:207-309 | in every reachable state, during Start too, a cancelled row is certain to stay cancelled in all runs if and only if no live worker of the task can still write and Start holds no copy of the row that it will write back or launch a writing worker with |
| TaskRestart.Overwrite | internal/infra/task/manager.go:312-378 | any worker that can still write can be driven, from any reachable state, to overwrite the row with a status other than cancelled |
| TaskManager.Manager.Start | internal/infra/task/manager.go:89-105 | Start, alone, starts one worker of the right kind for every non-terminal task (unless the reset of its row fails), none for any other, and no two for one; workers of earlier submissions live on |
| TaskManager.Manager.ExecuteTask | internal/infra/task/manager.go:312-378 | the executor goroutine, run to its end with successful writes, gives the slot back and leaves the row completed or failed for good |
| TaskManager.Manager.PollExternalTask | internal/infra/task/manager.go:381-464 | the polling loop ends, calls PollStatus at most MaxPollAttempts times, and leaves a final row unless stopped or a write fails |
| TaskManager.Manager.RecoverPendingTasks | internal/infra/task/manager.go:257-289 | the recovery loop re-queues exactly the in-process tasks whose reset, if any, succeeds |
| TaskManager.Manager.RecoverExternalTasks | internal/infra/task/manager.go:292-309 | the recovery loop resumes polling of exactly the running external tasks |
| TaskManager.Manager.Submit | internal/infra/task/manager.go:132-159 | in every phase of start-up: if the row can be created it is pending, has the given type, progress 0, no external ID, output, error or completion time, and its executor is launched with that row; otherwise nothing changes |
| TaskManager.Manager.SubmitExternal | internal/infra/task/manager.go:162-190 | in every phase of start-up: if the row can be created it is running, has the given type and external ID, progress 0, no output, error or completion time, and its poller is launched with that row; otherwise nothing changes |
| TaskManager.Manager.CancelRead | internal/infra/task/manager.go:207-216 | accepts exactly pending and running rows, and keeps a copy of the row with status cancelled |
| TaskManager.Manager.CancelWrite | internal/infra/task/manager.go:217-227 | writes that copy over the row |
| TaskManager.Manager.Begin | internal/infra/task/manager.go:323-344 | writes "running" if the type has an executor, else a failure with code unknown_task_type |
| TaskManager.Manager.OnProgress | internal/infra/task/manager.go:347-355 | the progress callback: writes the worker's status and the progress over the row's, and keeps the output in the worker's copy |
| TaskManager.Manager.Finish | internal/infra/task/manager.go:357-378 | writes the worker's copy as completed with progress 100 and the time, or as failed with code execution_failed |
| TaskManager.Manager.PollTick | internal/infra/task/manager.go:413-430 | one tick: counts the attempt, fails with max_attempts beyond the limit, else polls and keeps the answer |
| TaskManager.Manager.ApplyReport | internal/infra/task/manager.go:432-438 | writes the reported progress if it differs |
| TaskManager.Manager.SaveCompleted | internal/infra/task/manager.go:441-461 | writes the copy as completed, with progress 100, the time and the output that the completing poll gave |
| TaskManager.Manager.FailTask | internal/infra/task/manager.go:467-486 | writes the copy as failed with the given code |
| TaskManager.Manager.AcquireSlot | internal/infra/task/manager.go:315-321 | refines the acquisition of a semaphore slot |
| TaskManager.Manager.Release | internal/infra/task/manager.go:320 | refines the deferred release of the slot |
| TaskManager.Manager.PollStart | internal/infra/task/manager.go:386-402 | refines the look-up of the poller |
| TaskManager.Manager.PollTimeout | internal/infra/task/manager.go:409-411 | refines the timeout of the polling loop |
| TaskManager.Manager.ListPending | internal/infra/task/manager.go:257-263 | refines the listing of the tasks to re-queue |
| TaskManager.Manager.RequeueNext | internal/infra/task/manager.go:265-286 | refines one turn of the re-queueing loop |
| TaskManager.Manager.ListExternal | internal/infra/task/manager.go:292-298 | refines the listing of the tasks to poll |
| TaskManager.Manager.ResumeNext | internal/infra/task/manager.go:300-306 | refines one turn of the resuming loop |
| TaskManager.Manager.StopManager | internal/infra/task/manager.go:108-113 | refines the closing of the stop channel |
| Orders.OrderDomain.CreateTopupOrder | internal/domain/order/domain.go:130-178 | refines the creation of a top-up, with its minimum amount; the order stays if only its item cannot be written |
| Orders.OrderDomain.CreateSubscriptionOrder | internal/domain/order/domain.go:69-128 | refines the creation of a subscription order, with the answers of the plan query and the refusal of free plans; the order stays if only its item cannot be written |
| Orders.OrderDomain.MarkAsPaid | internal/domain/order/domain.go:217-245 | refines the move to paid followed by an invoice whose failure is ignored |
| Orders.OrderDomain.MarkAsFailed | internal/domain/order/domain.go:247-264 | refines the move to failed, guarded by the table |
| Orders.OrderDomain.CancelOrder | internal/domain/order/domain.go:266-294 | refines the move to canceled, guarded by the table |
| Orders.OrderDomain.MarkAsRefunded | internal/domain/order/domain.go:296-315 | refines the move to refunded, guarded by the table |
| Orders.OrderDomain.GenerateInvoice | internal/domain/order/domain.go:332-373 | refines the creation of an invoice unless one is found |
| Orders.OrderDomain.SetStripePaymentIntentID | internal/domain/order/domain.go:317-330 | refines the recording of an intent ID on an order |
| Orders.OrderDomain.UpdateOrderStatus | internal/app/app.go:482-496 | refines the dispatch of a status name to the order operations |
| Orders.OrderDomain.ExpirePendingOrders | internal/domain/order/domain.go:390-413 | the loop does to the listed orders, one after the other, what the specification does |
| Orders.ExpireExactly | internal/domain/order/domain.go:390-413 | expiry fails exactly the listed pending orders whose write succeeds, and changes nothing else |
| Credits.BillingDomain.AddCredits | internal/domain/billing/domain.go:372-399 | refines the addition of credits |
| Credits.BillingDomain.DeductCredits | internal/domain/billing/domain.go:401-432 | refines the deduction of credits |
| Credits.AddConserves | internal/domain/billing/domain.go:372-399 | additions keep: each balance is all additions minus all deductions, and not negative |
| Credits.DeductConserves | internal/domain/billing/domain.go:401-432 | deductions keep it too |
| Payments.PaymentDomain.CreatePaymentIntent | internal/domain/payment/domain.go:91-162 | refines the creation of a card payment, whose write failures are ignored |
| Payments.PaymentDomain.CreateNativePayment | internal/domain/payment/domain.go:164-249 | refines the creation of a native payment |
| Payments.PaymentDomain.HandlePaymentSucceeded | internal/domain/payment/domain.go:251-333 | refines the success handler, with look-ups that fail: guard, payment row, and order and credits or event |
| Payments.PaymentDomain.HandlePaymentFailed | internal/domain/payment/domain.go:335-374 | refines the failure handler, with a look-up that fails |
| Payments.PaymentDomain.HandleNativePaymentNotify | internal/domain/payment/domain.go:376-440 | refines the native handler with its record of webhook events |
| Payments.PaymentDomain.HandleNativePaymentSuccess | internal/domain/payment/domain.go:442-499 | refines its success branch, with the order read after the payment write |
| Payments.PaymentDomain.HandleNativePaymentClosed | internal/domain/payment/domain.go:501-518 | refines its closed branch |
| Payments.PaymentDomain.CreateRefund | internal/domain/payment/domain.go:520-590 | refines the refund request; if it reports success the refunded amount has grown as asked, and a payment that is refunded in full is marked so, with its order if that was paid and can be written |
| Payments.Aggregate.Refund | internal/domain/payment/payment.go:220-241 | the aggregate's own bookkeeping of a refund |
| PaymentRuns.InvStep | internal/domain/payment/domain.go:91-590 | every handler keeps the invariant that ties orders, payments, invoices, credits, published events and refunds together |
| PaymentTheorems.CreditsAtMostOnce | internal/domain/payment/domain.go:280-330 | over every run at most one credit entry stems from an order, and only from a settled top-up, in its amount and to its user; every balance is additions minus deductions and not negative |
| PaymentTheorems.CreditedIff | internal/domain/payment/domain.go:320-330 | a top-up that a step of a run settles is credited in the end if and only if this step's credit write succeeds and the order's own user has a subscription by then: with the above, exactly once |
| PaymentTheorems.SettledByStep | internal/domain/payment/domain.go:320-330 | every top-up that is settled in the end was settled by such a step |
| PaymentTheorems.OrdersAndPaymentsAgree | internal/domain/payment/domain.go:280-330 | a settled order has a charged payment of its own over its total, a refunded one a fully refunded payment, and invoices exist only for settled orders over their total |
| PaymentOutcomes.ReachedIff | internal/domain/payment/domain.go:91-590 | over every run an order is placed, settled, refunded, canceled, failed or invoiced in the end, and a payment record made, charged, refunded, failed, canceled or published, if and only if it was at the start or a step of the run did it, told by the event, the answers of the ports and the rows alone; so an order is refunded exactly if some step refunded the rest of a payment of it while the order was paid and both writes succeeded |
| PaymentOutcomes.BalanceIsSum | internal/domain/billing/domain.go:372-432 | over every run a balance moves by the accepted additions and deductions and the credits of the top-ups that steps marked as paid |
| PaymentOutcomes.PlacedOrder | internal/domain/order/domain.go:69-178 | a new order is pending, over the amount asked for or the plan's price |
| PaymentOutcomes.MadeRecord | internal/domain/payment/domain.go:126-145 | a new payment record has the order's user and total, the provider, and the intent or trade number |
| PaymentOutcomes.ChargedRecord | internal/domain/payment/domain.go:290-301 | charging a record sets its status and its charge or trade number and nothing else |
| PaymentOutcomes.RefundStepIff | internal/domain/payment/domain.go:520-580 | the provider is asked to refund n exactly for a succeeded or refunded payment with at least n left, of a provider that can, with a charge for stripe; the row's refunded amount grows by n exactly if it can be written |
| PaymentInvoices.SecondInvoiceIff | internal/domain/order/domain.go:332-373 | an order gets a second invoice exactly if it is paid, has one, its look-up fails and the write succeeds |
| PaymentInvoices.OneInvoiceIff | internal/domain/order/domain.go:217-373 | over every run no order has two invoices in the end if and only if no separate GenerateInvoice meets that condition |
| PaymentInvoices.HandlersInvoiceOnce | internal/domain/order/domain.go:217-245 | runs of the handlers alone never invoice an order twice, whatever look-ups and writes fail |
| PaymentInvoices.SecondInvoiceIsReached | internal/domain/order/domain.go:332-373 | a run from the empty store in which a separate GenerateInvoice adds a second invoice |
| PaymentTheorems.RowsOnlyProceed | internal/model/order.go:41-58 | over every run statuses of orders and payments only move forward, a failed order is never pending again, and what was ordered and paid for never changes |
| PaymentTheorems.PublishedAtMostOnce | internal/domain/payment/domain.go:303-319 | with a publisher, no payment record has its success published twice |
| PaymentWebhooks.ChargedOnceIff | internal/domain/payment/domain.go:251-301 | over every run an intent has at most one charged record in the end if and only if no step charges a record of an intent that has a charged one already |
| PaymentWebhooks.ReadableRunsChargeOnce | internal/domain/payment/domain.go:258-278 | while look-ups of payments do not fail, no intent has two records at all |
| PaymentWebhooks.RedeliveryIff | internal/domain/payment/domain.go:251-285 | after a delivery that charged a record, even one that could not mark the order, a second one changes nothing and reports success if and only if its look-ups are answered, with that record or one that had succeeded before |
| PaymentWebhooks.RedeliveryIsNeutral | internal/domain/payment/domain.go:251-285 | in particular while look-ups do not fail |
| PaymentWebhooks.FailedLookUpChargesTwice | internal/domain/payment/domain.go:258-278 | a run from the empty store in which a failing look-up leads to two succeeded records of one intent, both published |
| PaymentWebhooks.ReplacedIff | internal/domain/payment/domain.go:91-125 | a second CreatePaymentIntent replaces the intent of an order exactly if it gets as far as writing the new one to the order |
| PaymentWebhooks.ReplacedIntentIsDead | internal/domain/payment/domain.go:251-256 | in every later state of every run a success webhook of a replaced intent is rejected and changes nothing |
| PaymentWebhooks.SettlesIff | internal/domain/payment/domain.go:251-333 | which intents can still settle an order: the one written to it last, while it is pending, and, if look-ups do not fail, while a record of it can succeed or the handler makes one |
| PaymentWebhooks.NotifySilentIff | internal/domain/payment/domain.go:400-416 | a notification for a known payment is reported done without any effect exactly if the payment has succeeded or its event is stored or cannot be |
| PaymentWebhooks.StoredEventsAreFinal | internal/domain/payment/domain.go:407-463 | the first success notification of a trade number charges its payment exactly if the payment write succeeds; after it, in every later state of every run, each notification of that number is reported done and changes nothing |
| PaymentTheorems.RefundsConserved | internal/domain/payment/domain.go:520-590 | over every run RefundedAmount is the sum of the recorded refunds, between 0 and the amount, equal to it exactly if the payment is refunded; it is all that was issued exactly if no update of the row failed |
| PaymentTheorems.IssuedIffRecorded | internal/domain/payment/domain.go:571-580 | issued and recorded refunds agree exactly if every refund was recorded |
| PaymentTheorems.LostUpdateRefundsTwice | internal/domain/payment/domain.go:571-580 | when the row cannot be updated, two requests pay the whole remainder out twice |
| PaymentTheorems.RefundRefinesAggregate | internal/domain/payment/payment.go:220-241 | CreateRefund computes status, total and amount as the aggregate does, and refuses whenever the aggregate refuses |
| RoutingTheorems.PreferenceStage | internal/domain/ai/strategy.go:153-176 | the preference loop keeps the preferred models, or all if there is none |
| RoutingTheorems.HealthStage | internal/domain/ai/strategy.go:219-241 | the health loop keeps the models not known to be unhealthy, or all if there is none |
| RoutingTheorems.RequiredExactly | internal/model/ai.go:500-520 | the capabilities required are chat and those that the four flags of the request ask for |
| RoutingTheorems.CapabilityStage | internal/domain/ai/strategy.go:263-277 | the capability loop keeps the models with chat and, flag by flag, with streaming, tools, vision and JSON mode |
| RoutingTheorems.ContextStage | internal/domain/ai/strategy.go:299-333 | the context loops keep the models whose window has room for the estimated tokens plus 4096 and for the minimum asked for, or else those with the largest window; all if nothing is asked for |
| RoutingTheorems.OrderIsLastPosition | internal/domain/ai/strategy.go:184-187 | a model's preference order is the distance of its last occurrence from the end of the list |
| RoutingTheorems.LastScores | internal/domain/ai/strategy.go:336-442 | the final score is the preference, window and cost bonus plus the draw, relative to the largest window and the smallest cost of the survivors |
| RoutingWinners.RoutingOutcome | internal/domain/ai/strategy.go:79-110 | the default chain fails exactly if nobody survives its filters, naming the filter that left nobody, and else ranks exactly the survivors |
| RoutingWinners.SucceedsIffSomebodyIsAble | internal/domain/ai/strategy.go:79-110 | with windows that are not negative it succeeds exactly if somebody left after the preference and health filters has chat and, flag by flag, every capability asked for |
| RoutingWinners.WinnerIsSound | internal/domain/ai/strategy.go:79-333 | every possible winner has chat and, flag by flag, the capabilities asked for; it is preferred if anybody is, not known to be unhealthy unless all are, and fits if anybody able does, else has the largest window |
| RoutingWinners.PreferenceDominates | internal/domain/ai/strategy.go:179-197 | without cost optimisation the winner has the best preference rank of the survivors; with it no survivor is three or more ranks better |
| RoutingWinners.TwoRanksCanLose | internal/domain/ai/strategy.go:384-414 | a gap of two ranks is not enough: a concrete case that is lost whatever the draws |
| RoutingWinners.NearOptimalCost | internal/domain/ai/strategy.go:384-442 | with cost optimisation alone the winner costs less than 200/199 of the cheapest survivor |
| RoutingWinners.DearerCanWin | internal/domain/ai/strategy.go:384-442 | that bound is sharp: every dearer cost below it wins for some draws |
| StrategyChain.ChainIsCanonical | internal/domain/ai/strategy.go:67-119 | the same strategies with distinct priorities run in the same order however they are split between NewStrategyChain and AddStrategy and ordered |
| StrategyChain.DefaultOrder | internal/domain/ai/strategy.go:122-131 | the default strategies run from user preference to load balancing |
| StrategyChain.ScoresAreTheirBreakdowns | internal/model/ai.go:544-550 | with distinct names every final score is the sum of its breakdown |
| StrategyChain.EqualNamesLoseAnEntry | internal/model/ai.go:544-550 | with equal names it is not: score 2, breakdown 1 |
| Router.ScoredCandidate.AddScore | internal/model/ai.go:544-550 | the update of score, breakdown and reasons |
| Router.Select | internal/domain/ai/strategy.go:163-168 | the appending loop keeps exactly the candidates that pass, in order |
| Router.SelectRoomy | internal/domain/ai/strategy.go:299-333 | the context filter with its fallback |
| Router.PreferenceOrders | internal/domain/ai/strategy.go:184-187 | the map built by the loop holds the preference order of every preferred model |
| Router.SmallestCost | internal/domain/ai/strategy.go:390-397 | the loop that looks for the smallest cost |
| Router.LargestWindow | internal/domain/ai/strategy.go:342-347 | the loop that looks for the largest window |
| Router.ScorePreference | internal/domain/ai/strategy.go:179-197 | scores the candidates in place, each by its preference order |
| Router.ScoreWindow | internal/domain/ai/strategy.go:336-362 | scores the candidates in place, each by its share of the largest window |
| Router.ScoreCost | internal/domain/ai/strategy.go:384-414 | scores the candidates in place, each by its relation to the smallest cost |
| Router.ScoreJitter | internal/domain/ai/strategy.go:436-442 | adds a draw to every candidate in place |
| Router.Chain.AddStrategy | internal/domain/ai/strategy.go:112-119 | the chain becomes some sorted order of its strategies and the new one |
| Router.Chain.Execute | internal/domain/ai/strategy.go:79-110 | filters and scores in the chain's order; reports some candidate of maximal score, or the filter that left nobody |
| AiRouting.AiDomain.BuildCandidates | internal/domain/ai/domain.go:399-412 | one fresh candidate for each enabled model with an enabled provider, in order |
| AiRouting.UsableExactly | internal/domain/ai/domain.go:399-412 | those are exactly the listed models that are enabled and whose provider is |
| AiRouting.AiDomain.Route | internal/domain/ai/domain.go:334-447 | a failing query, an unknown group and an empty list are errors of their own; otherwise the chain's outcome on those candidates, with the monitored health merged in, and for a routed model the key of the chosen account or of the provider |
| AiRouting.RoutedAccountIsBest | internal/domain/ai/domain.go:418-464 | such an account is active, belongs to the routed provider, is not unhealthy, and none of these has a higher priority |
| AiRouting.RoutedIsUsable | internal/domain/ai/domain.go:334-364 | the routed model is enabled, has an enabled provider and, flag by flag, the capabilities asked for, and is reported down, by the monitor or the request, only if all of its stage are |
| AiRouting.ResultIsGiven | internal/domain/ai/strategy.go:79-110 | whatever the strategies, the routed model is one of those given |
| AiRouting.UngroupedRoutes | internal/domain/ai/domain.go:386-397 | without a group routing fails only for want of usable models, as the query has asked for the capabilities |
| AccountPool.BestIsFirstMaximum | internal/domain/ai/domain.go:450-464 | the chosen account is the first one of maximal priority |
| AccountPool.Domain.SelectAccount | internal/domain/ai/domain.go:450-464 | the loop over `best` finds it |
| AccountPool.Domain.ResolveAPIKey | internal/domain/ai/domain.go:418-447 | the account's key, or the provider's if there is no account or it cannot be decrypted |
| AccountPool.Domain.MarkRequestFailure | internal/domain/ai/domain.go:797-835 | one more failure; unhealthy from five on, degraded from two on, in memory even if the store fails |
| AccountPool.Domain.MarkRequestSuccess | internal/domain/ai/domain.go:773-794 | refines the success, with a port that resets the count or only counts usage |
| AccountPool.Domain.ResetAccountHealth | internal/domain/ai/domain.go:615-620 | refines the reset of count and health in the store |
| AccountPool.ServedIsBest | internal/domain/ai/domain.go:418-464 | only active accounts that are not unhealthy are handed out, and of those one of highest priority |
| AccountPool.HealthIsThreshold | internal/model/ai.go:204-209 | over every run the stored count lies between zero and five, and stored health is unhealthy at five, degraded from two on, else healthy |
| AccountPool.FailuresAddUp | internal/domain/ai/domain.go:773-835 | over every run the failing requests of an account are the growth of its stored count plus what was erased from the count and what was not recorded |
| AccountPool.AtMostFiveFailures | internal/domain/ai/domain.go:797-828 | the failing requests stay within what is left up to five if and only if no more counts are erased or lost than the final count leaves room for; if none are, the limit holds and the account is unhealthy exactly after the last of them |
| AccountOverlap.OverlappingFailures | internal/domain/ai/domain.go:418-464 | with at most m requests of an account in flight the same account holds, and while nothing is erased or lost fewer than 5 + m fail, less the count at the start |
| AccountOverlap.BoundIsReached | internal/domain/ai/domain.go:797-828 | for every m, 4 + m failing requests are possible |
| AccountPool.SuccessesLiftTheBound | internal/adapter/outbound/postgres/ai_account.go:91-103 | with the wired port they may not: for every n a run without resets has n failing requests on one account |
| AccountPool.CacheTracksStore | internal/domain/ai/domain.go:788-828 | with the wired port the in-memory health is the stored one while writes succeed and nobody resets it |
| AccountPool.ResetIsNotCached | internal/domain/ai/domain.go:615-620 | a reset makes the two differ exactly if the in-memory health was not healthy |
| Quota.QuotaCache.IncrementTokens | internal/adapter/outbound/redis/quota_cache.go:49-65 | refines increment and expiry of the token counter |
| Quota.QuotaCache.IncrementRequests | internal/adapter/outbound/redis/quota_cache.go:79-97 | refines increment and expiry of the request counter |
| Quota.QuotaCache.GetTokensUsed | internal/adapter/outbound/redis/quota_cache.go:37-47 | reads the live counter of the period's month, or zero |
| Quota.QuotaCache.GetRequestsToday | internal/adapter/outbound/redis/quota_cache.go:67-77 | reads the live counter of the day, or zero |
| Quota.QuotaCache.ResetTokens | internal/adapter/outbound/redis/quota_cache.go:99-102 | refines the deletion of a period's counter |
| Quota.BillingDomain.CheckQuota | internal/domain/billing/domain.go:233-274 | each verdict exactly under its condition on subscription, status, the two limits and the two counts read |
| QuotaRequests.SoundRequestRead | internal/domain/billing/domain.go:262-271 | the count read is at least the day's successful requests exactly if the cache or the database answers, or there are none |
| QuotaRequests.AdmissionBoundsRequests | internal/domain/billing/domain.go:233-298 | over every run with such reads, working cache writes, admission first and at most m in flight, the successful requests of each day are none or fewer than the daily limit plus m, wherever midnight falls between check and record |
| QuotaRequests.RequestBoundIsReached | internal/domain/billing/domain.go:262-271 | that bound is sharp for every positive limit and every m |
| QuotaRequests.BlindChecksLiftTheBound | internal/domain/billing/domain.go:264-267 | while cache and database both fail, any number of requests is admitted |
| Quota.BillingDomain.GetQuotaStatus | internal/domain/billing/domain.go:187-231 | what remains is never negative, adds up with the usage, is zero exactly if the limit is reached, and -1 exactly for unlimited plans |
| Quota.BillingDomain.RecordUsage | internal/domain/billing/domain.go:329-357 | refines the record followed by the counters of successful requests |
| Quota.BillingDomain.ConsumeQuota | internal/domain/billing/domain.go:276-298 | refines the two increments |
| Quota.BillingDomain.UpdateSubscriptionFromStripe | internal/domain/billing/domain.go:436-465 | refines the sync with its reset of the old period's counter |
| Quota.BillingDomain.CreateSubscription | internal/domain/billing/domain.go:112-152 | refines the creation of a subscription: refused to subscribers, for unknown and inactive plans and when a query fails; the first period starts now |
| Quota.BillingDomain.CancelSubscription | internal/domain/billing/domain.go:154-183 | refines the cancellation, which downgrades the plan if immediate |
| QuotaTheorems.CachedTokensAreTheSum | internal/infra/persistence/billing_repo.go:148-159 | over every run with a strictly increasing clock, working cache writes, renewals that start after every earlier record and no later than the next, and no record that meets an expired counter, the cached token count of the current period is the sum of its successful records exactly if the counter has not expired or the sum is zero |
| QuotaTheorems.ExpiryAfterRecord | internal/adapter/outbound/redis/quota_cache.go:58-62 | after a record in time the counter lives exactly until a day after the period's end |
| QuotaTheorems.ExpiredCounterForgets | internal/adapter/outbound/redis/quota_cache.go:49-65 | a record that meets an expired counter makes it lag behind by all that was used before |
| QuotaTheorems.CachedRequestsAreTheCount | internal/adapter/outbound/redis/quota_cache.go:67-97 | the cached request count is the number of the day's successful records, whatever renewals come between |
| QuotaTheorems.FallbackCountsFailures | internal/adapter/outbound/postgres/usage_record.go:108-116 | the wired fallback exceeds the counter's meaning by the tokens of failed records |
| QuotaTheorems.AdmissionBoundsUsage | internal/domain/billing/domain.go:233-298 | in such runs, if records are admitted first by a check that reads the database or a live counter, use at most k tokens, and at most m are in flight, the usage of a period is zero or below the limit plus m * k |
| CollaborationDomain.Domain.CreateTeam | internal/domain/collaboration/domain.go:58-123 | refines the creation of a team with its owner |
| CollaborationDomain.Domain.UpdateTeam | internal/domain/collaboration/domain.go:186-226 | refines the update of those of name (with slug), description and visibility that are given |
| CollaborationDomain.Domain.DeleteTeam | internal/domain/collaboration/domain.go:228-262 | succeeds exactly for a member with the owner role; the team is then inactive and none of its invitations is pending |
| CollaborationDomain.Domain.UpdateMemberRole | internal/domain/collaboration/domain.go:297-334 | refines the change of a role |
| CollaborationDomain.Domain.RemoveMember | internal/domain/collaboration/domain.go:335-364 | refines the removal of a member |
| CollaborationDomain.Domain.LeaveTeam | internal/domain/collaboration/domain.go:366-380 | refines leaving, which is removing oneself |
| CollaborationDomain.Domain.SendInvitation | internal/domain/collaboration/domain.go:394-501 | refines the invitation with all its refusals |
| CollaborationDomain.Domain.AcceptInvitation | internal/domain/collaboration/domain.go:562-634 | refines the acceptance with all its refusals |
| CollaborationDomain.Domain.RejectInvitation | internal/domain/collaboration/domain.go:637-654 | refines the rejection |
| CollaborationDomain.Domain.RevokeInvitation | internal/domain/collaboration/domain.go:657-682 | refines the revocation |
| CollaborationRuns.InvStep | internal/domain/collaboration/domain.go:58-682 | every operation keeps the invariant of teams and invitations |
| CollaborationTheorems.TeamInvariant | internal/domain/collaboration/domain.go:80-379 | in every reachable state a team has exactly one owner-role member, its OwnerID; at most MemberLimit members; and one plus accepted invitations minus removals of them |
| CollaborationTheorems.InvitationInvariant | internal/domain/collaboration/domain.go:394-682 | no invitation carries the owner role, a deleted team has none pending, and there is at most one pending per team and normalised email |
| CollaborationTheorems.HistoriesProceed | internal/domain/collaboration/domain.go:562-682 | over every run an invitation leaves pending once and never changes again; a team keeps owner and limit, and once deleted stays deleted and never gains a member |
| CollaborationTheorems.MembersIff | internal/domain/collaboration/domain.go:58-634 | over every run somebody is a member of a team, or has a certain role in it, in the end if and only if they were or had at the start and kept it, or got it in some step and kept it since: as the owner of the new team, by a pending invitation in time, meant for their address, into an active team with room, or from an owner or administrator who may give that role |
| CollaborationTheorems.InvitationAdmitsOnce | internal/domain/collaboration/domain.go:562-634 | over every run at most one acceptance of an invitation lets somebody in |
| CollaborationFates.FateIff | internal/domain/collaboration/domain.go:58-682 | over every run a team is there or deleted, and an invitation is there, accepted, rejected, revoked or expired, in the end if and only if it was at the start or a step of the run did it, told by the event and the rows alone; so a team is deleted exactly if a member with the owner role deleted it and the store accepted that |
| CollaborationFates.SentInvitation | internal/domain/collaboration/domain.go:394-501 | a new invitation is pending, for the normalised address, with the role and expiry asked for |
| CollaborationFates.MadeTeam | internal/domain/collaboration/domain.go:58-123 | a new team is active, private by default, and its only member is its owner |
| CollaborationFates.UpdatedTeam | internal/domain/collaboration/domain.go:186-226 | only an update by an owner or administrator of an active team changes its details, and only in the fields given |
| Slugs.CollapseHyphens | internal/domain/git/domain.go:757-759 | the loop ends and equals collapsing runs of hyphens in one pass |
| Slugs.GenerateRepoSlug | internal/domain/git/domain.go:744-763 | the generator computes its specification |
| Slugs.RepoSlugIsNormal | internal/domain/git/domain.go:744-763 | the slug has only slug characters, no doubled hyphens and none at its ends, and keeps all letters and digits of the lower-cased name in order |
| Slugs.RepoSlugFixes | internal/domain/git/domain.go:744-763 | the fixed points of the generator are exactly those normal forms |
| Slugs.RepoSlugIsIdempotent | internal/domain/git/domain.go:744-763 | generating a slug from a slug changes nothing |
| Slugs.RepoNameAccepted | internal/domain/git/domain.go:70-75 | the name check accepts a name exactly if it has a letter a-z or a digit when lower-cased |
| Slugs.NormalMatches | internal/domain/git/domain.go:19 | of the normal forms the regular expression accepts all but the empty one |
| Slugs.TeamSlugShape | internal/domain/collaboration/domain.go:735-752 | at most 50 bytes, no leading and no doubled hyphen, a trailing one exactly if the cut falls behind one; up to the cut the letters and digits of the name |
| Slugs.TeamSlugSettles | internal/domain/collaboration/domain.go:735-752 | the second application removes a trailing hyphen and nothing else, and is a fixed point |
| Slugs.TeamSlugMayEndInHyphen | internal/domain/collaboration/domain.go:746-749 | the first application may end in a hyphen |
| GinPath.ToGinPath | cmd/protoc-gen-go-gin/main.go:256-297 | the index loop equals the recursive translator |
| GinPath.TranslateAppend | cmd/protoc-gen-go-gin/main.go:256-297 | a path that translates can be continued by any path: outputs and variables are concatenated, or the second path's error is the error |
| GinPath.SucceedsExactly | cmd/protoc-gen-go-gin/main.go:256-297 | a path translates to (out, vars) exactly if it is the source of well-formed segments with that output: characters as they are, and for each braced name, trimmed and without its template, ':' or, if the template has '/' or '**', '*', followed by the name; each name once, in order |
| GinPath.FailsExactly | cmd/protoc-gen-go-gin/main.go:256-297 | a path is refused exactly if well-formed segments are followed by an unclosed brace or by a field that is dotted or only space, with the corresponding error |

## Left out

- HTTP handlers, routes, wiring, generated code, configuration loading, vendor adapters, encryption and random tokens.
- Handlers other than the task manager's are atomic steps: lost updates between two handlers on one row are not modelled.
- Task timestamps other than the completion time, subscriptions to a task, and listing and reading of tasks; a task's output is one string.
- The int64 range of amounts and counters, and float64 rounding.
- Errors of reading queries that the code returns before it has changed anything.
- Orders: items, currency, order numbers, and the clock that decides which orders have expired (the listing is a parameter).
- Payments: failure codes, payer IDs, currencies, methods, and webhook signatures. A database adapter that answers a missing row with nil instead of an error would make the handlers dereference nil; `Mode.missingIsError` keeps the two apart, and the nil case is an error outcome.
- Routing: the health monitor; failing look-ups of single models and providers count as missing rows, as they do in the code. Sorting a slice that is also the caller's is not visible to the caller here; a custom strategy is limited to judging candidates one by one and adding at most one score to each.
- Account pool: in `AccountPool` a request and the recording of its outcome are one step, in `AccountOverlap` they are two; each of the two is atomic. Daily statistics and editing of an account's health by hand are not part of the model.
- Quota: usage statistics and plans as such; the location in which the month of a period start is taken is the parameter `month`.
- Teams: listings and response formats. A transaction takes effect as a whole; the PostgreSQL adapter writes invitation statuses and team deletions outside the transaction (internal/adapter/outbound/postgres/collaboration.go:95-99 and 311-335), which is not modelled. The adapter's checks of role names are the parameter `ok`.
- Lower-casing and trimming of email addresses and names are parameters; invalid UTF-8 in names and paths is not modelled.
