# Marketplace verification

A Dafny model of a home-services marketplace: technicians are verified, get a payment account, take orders, and
are paid through an external provider. The model follows the money (commission, captures, refunds, disputes, a
double-entry book and its reports), the rule that decides who may hold an order, and three smaller algorithms
(key rotation, reputation, the audit chain). `dafny verify dfyconfig.toml` checks all of it.

How the files fit together:

- `Commission`, `FeeCoverage`, `RuleTimeline`: cents, half-up rounding, the split of a charge, the check that a rule
  pays for the provider's fee, and the timeline of rules.
- `Ledger`, `Payments`: the book, and one payment with everything stored about it. Each call is a function from a
  payment to a new payment or an error. `PaymentFile` is the stored payment whose fields the service changes one by
  one inside a transaction; each of its methods is proved to reach the state that function gives.
- `PaymentInvariants`, `PaymentTheorems`: what holds in every reachable state, and what follows for every run.
  `PaymentEffects`: what each call promises, exactly: when it is refused, which rows it writes and with what.
- `Orders`, `Desk`, `ServiceDesk`, `DeskTheorems`: the order's state machine, an order with all the service payments
  ever made for it, the use cases changing both in place, and what no run of them can do. `DeskEffects`: what each use
  case charges or gives back, and who may take it.
- `Kyc`, `Marketplace`, `MarketStore`, `MarketTheorems`: identities, payment accounts and orders together; the tables
  changed by loops; the critical rule over every run. `MarketEffects`: every reason for which an account is blocked or
  a technician becomes eligible, and what a round of a job does to each order.
- `Reports`: the journal of all payments and the reports read from it.
- `KeyRotation`, `KeyVault`: envelope encryption with symbolic ciphers, and its rotation in batches.
- `Reputation`, `AuditChain`: the weighted rating over real numbers, and the hash chain.

Three conventions. An exception in the program is an `Err` here, and rolls back whatever the call had changed. What the
provider, the clock or another transaction decides is a parameter, so the theorems hold for every answer. A run is any
sequence of calls, reports and jobs in any order, failing ones included; a job that loops over rows is a run of its steps.

Where the program and its own comments disagree, the model follows the program:

- The finite check of a rule claims that the commission covers the provider's fee in the whole range. It leaves up to
  three cents uncovered at the default fee rates (`FeeCoverage.CheckCoversWithinThreeCents`), and no smaller slack is
  enough (`FeeCoverage.ThreeCentsAreNeeded`, `FeeCoverage.DefaultRangeHasGap`). Made with cents to spare at the same
  candidates it guarantees the claim, for every rule and range, exactly from three cents on
  (`FeeCoverage.ThreeSpareCentsExactly`); as it is made it is exact for rules without a proportional part
  (`FeeCoverage.ConstantRuleExactly`).
- Giving up a reservation is offered for a payment in process, but the table has no such move: the call fails exactly
  there (`PaymentTheorems.CancelFailsInProcess`), and with it the suspension of a technician who holds such an order
  (`MarketTheorems.SuspensionLetsGo`).
- A rule cannot be created in the past, but it can be closed there, and what is resolved for a past instant may then
  differ (`RuleTimeline.ClosingRewritesPast`); changes dated later leave it alone (`RuleTimeline.RunKeepsPast`).
- Settling a dispute by a partial capture makes the order ready for review whatever the provider answers
  (`DeskTheorems.PartialResolutionCharges`); a review still needs a confirmed payment (`DeskTheorems.ReviewedWasCharged`).

## Model

| member | source | states |
|---|---|---|
| Commission.HalfUp | app/payments/commission.py:76-80 | basis points are rounded to the nearest cent, ties upwards |
| Commission.HalfUpUnique | app/payments/commission.py:76-80 | no other integer is that rounding |
| Commission.RuleCommission | app/payments/commission.py:105-119 | a rule's commission is its rounded share plus its fixed part, lowered only to the price or its maximum and raised only to its minimum |
| Commission.SplitExplained | app/payments/commission.py:177-208 | each tax of a split is its own rate of its own base, rounded on its own: service tax and both withholdings of the price, the commission's tax of the commission; the technician gets the rest |
| Commission.SplitExists | app/payments/commission.py:177-208 | without a discount there is a split exactly when the price carries its commission, taxes and withholdings |
| Commission.DiscountNeutral | app/payments/commission.py:177-208 | a discount is accepted exactly when the plain split exists and the fee and the charge cover it; then the technician and each withholding keep their amounts and the platform's fee drops by the discount to the cent |
| Commission.DiscountedTaxWithinOneCent | app/payments/commission.py:191-198 | the tax left on a discounted commission is within one cent of the rate applied to it |
| Commission.FindPriceForCharge | app/payments/commission.py:385-392 | the price is the highest whose charge fits; the first correction loop never runs and the second at most once |
| Commission.PriceUnique | app/payments/commission.py:385-392 | only one price fits a charge without leaving room for the next |
| Commission.PriceForChargeInverts | app/payments/commission.py:385-392 | it inverts the price with tax for every price and rate |
| Commission.SplitRebuiltFromCharge | app/payments/service.py:581-606 | recomputing from a real charge with the quote's terms rebuilds the same split cent by cent |
| FeeCoverage.UncoveredPrice | app/payments/commission.py:219-242 | it returns the first candidate the rule does not cover, or nothing when all are covered |
| FeeCoverage.CheckBoundsShortfall | app/payments/commission.py:219-242 | after a passed check, the shortfall at every integer price of the range is bounded by the rounding of the fee |
| FeeCoverage.CheckCoversWithinThreeCents | app/payments/commission.py:211-242 | at the default fee rates that bound is three cents |
| FeeCoverage.ThreeSpareCentsExactly | app/payments/commission.py:211-242 | at the default fee rates, passing the check with so many cents to spare guarantees coverage of every price, for every rule and range, exactly when they are three or more; the check as made is the one with none |
| FeeCoverage.SpareCovers | app/payments/commission.py:219-242 | at any fee rates, what is spared at the candidates covers every price between once it exceeds the roundings |
| FeeCoverage.TwoSpareCentsAreNotEnough | app/payments/commission.py:219-242 | a rule and a range with two cents to spare at every candidate and a price one cent short |
| FeeCoverage.ConstantRuleExactly | app/payments/commission.py:219-242 | for a rule without a proportional part, at any fee rates, the check passes exactly when every price of the range is covered |
| FeeCoverage.CoveredRangePasses | app/payments/commission.py:219-242 | a rule that covers the whole range always passes the check |
| FeeCoverage.ThreeCentsAreNeeded | app/payments/commission.py:219-242 | a rule, a range and a price inside it that pass the check three cents short |
| FeeCoverage.DefaultRangeHasGap | app/payments/commission.py:219-242 | the claim of full coverage also fails at the platform's own price range |
| RuleTimeline.ResolutionUnique | app/payments/commission.py:248-267 | at any instant a scope and reference has at most one rule in force |
| RuleTimeline.MostSpecificApplies | app/payments/commission.py:248-267 | an order gets the most specific of the rules that apply to it, promotion before technician before category before global, and none exactly when none applies |
| RuleTimeline.CreateKeepsTimeline | app/payments/commission.py:303-362 | creating a rule keeps the intervals of each key disjoint and non-empty |
| RuleTimeline.CloseKeepsTimeline | app/payments/commission.py:365-382 | so does closing one |
| RuleTimeline.RunKeepsTimeline | app/payments/commission.py:303-382 | so does every sequence of creations and closings |
| RuleTimeline.CreateKeepsPastResolutions | app/payments/commission.py:337-354 | a new rule never changes what is resolved at any instant before its start |
| RuleTimeline.CreateTakesOver | app/payments/commission.py:337-354 | from its start the new rule, with the terms proposed, is the one in force for its key |
| RuleTimeline.CloseEndsRule | app/payments/commission.py:365-382 | a closed rule is in force until that instant, no later than before, and nothing else of its key changes |
| RuleTimeline.RunKeepsSensible | app/payments/commission.py:316-334 | on every run each rule fits its type and its limits and passes the fee check, and the terms of a rule never change |
| RuleTimeline.RunKeepsPast | app/payments/commission.py:303-382 | what was resolved more than a minute before some changes began is resolved the same after all of them, as long as closings are dated later |
| RuleTimeline.ClosingRewritesPast | app/payments/commission.py:365-382 | a closing dated in the past takes the rule from an instant at which it had been resolved |
| RuleTimeline.CoverageSurvivesCreation | app/payments/commission.py:303-362 | prices stay resolvable after a creation exactly when a new global rule has no end |
| RuleTimeline.RunStaysResolvable | app/payments/commission.py:248-267 | over every run of creations and closings whose new global rules have no end, every order finds a rule at every instant |
| RuleTimeline.RuleBook.CreateRule | app/payments/commission.py:303-362 | the loop that closes the rules in force and the insertion reach the specified timeline, or change nothing |
| RuleTimeline.RuleBook.CloseRule | app/payments/commission.py:365-382 | closing in place reaches the specified timeline, or changes nothing |
| Ledger.WriteGroup | app/payments/ledger.py:37-49 | the nonzero lines are appended as one group; an empty or unbalanced group is refused |
| Ledger.PostKeepsBalanced | app/payments/ledger.py:37-49 | every group in the book sums to zero after any posting |
| Ledger.PostMoves | app/payments/ledger.py:52-85 | a posting moves each account by its line, under its own kind only |
| Ledger.PostAppends | app/payments/ledger.py:37-49 | the book is only appended to |
| Ledger.BalanceByKind | app/payments/ledger.py:52-85 | a balance is the sum over captures, refunds and chargebacks |
| PaymentFiles.PaymentFile.MoveTo | app/payments/state_machine.py:51-59 | moves along the table, does nothing when already there, and is refused otherwise |
| PaymentFiles.PaymentFile.ApplyState | app/payments/service.py:279-317 | applies a report of the provider, walking intermediate states and ignoring what goes backwards |
| PaymentFiles.PaymentFile.RecordCapture | app/payments/service.py:559-606 | settles on the real amount, rebuilds its breakdown when it can, and posts the frozen split |
| PaymentFiles.PaymentFile.CapturePartially | app/payments/service.py:449-467 | stores a second breakdown at most once and captures it, or captures in full |
| PaymentFiles.PaymentFile.CaptureVisit | app/payments/cancellations.py:132-142 | captures the visit fee, or voids the reservation and leaves a stored breakdown behind |
| PaymentFiles.PaymentFile.CancelReservation | app/payments/service.py:377-395 | gives the reservation up, queueing a void when the provider does not answer |
| PaymentFiles.PaymentFile.Create | app/payments/refunds.py:182-204 | opens a refund of what is left, one at a time, within what can be refunded |
| PaymentFiles.PaymentFile.RefundByFinance | app/payments/refunds.py:232-253 | executes at once below the threshold on the cumulative amount, and waits for a second signature above it |
| PaymentFiles.PaymentFile.ApproveRefund | app/payments/refunds.py:256-277 | needs another signer, with the high permission above the threshold, and a refundable payment |
| PaymentFiles.PaymentFile.Send | app/payments/refunds.py:309-334 | a network error leaves the refund approved; a refusal or a dispute fails it |
| PaymentFiles.PaymentFile.ApplyRefundState | app/payments/refunds.py:346-365 | applies the provider's state of a refund, keeping provider ids unique |
| PaymentFiles.PaymentFile.Confirm | app/payments/refunds.py:379-408 | fixes the shares, counts the refund, moves the payment unless it is disputed, and posts the shares |
| PaymentFiles.PaymentFile.RecordFromOutside | app/payments/refunds.py:411-434 | records a refund made at the provider, absorbed by the platform; fails while another is open |
| PaymentFiles.PaymentFile.SyncFromProvider | app/payments/disputes.py:57-89 | opens, updates and closes a dispute as reported |
| PaymentFiles.PaymentFile.LoseDispute | app/payments/disputes.py:92-127 | takes back the technician's share of what is left, if the provider can, and posts the loss |
| PaymentFiles.PaymentFile.WinDispute | app/payments/service.py:659-675 | returns to the state its refunds say |
| PaymentFiles.PaymentFile.Transact | app/payments/webhooks.py:113-129 | every call either reaches its specified state or leaves the payment as it was |
| PaymentInvariants.StepKeeps | app/payments/service.py:279-317 | every call and report keeps amounts, refunds, book and voids in agreement |
| PaymentInvariants.RunKeeps | app/payments/service.py:279-678 | so does every run |
| PaymentInvariants.SucceedKeeps | app/payments/refunds.py:379-408 | a refund in flight is confirmed exactly when the payment is charged or disputed, and all stays in agreement |
| PaymentInvariants.ChargeBackKeeps | app/payments/disputes.py:92-127 | a lost dispute never fails and keeps all in agreement, overlapping refunds included |
| PaymentEffects.ChargeSettles | app/payments/service.py:559-606 | the report of a charge settles on what was expected, unless no partial capture was stored and less came in that some price explains: then on that amount |
| PaymentEffects.ChargePosts | app/payments/ledger.py:52-60 | in the book of a charged payment each account has its own part of the split: technician, commission, its tax, both withholdings |
| PaymentEffects.ReservationDies | app/payments/service.py:279-317 | a declined or lost reservation is dead, tells the order so, and changes nothing else; a loss in process is refused |
| PaymentEffects.LateReportIgnored | app/payments/service.py:320-341 | a report on a charged or dead payment changes nothing but an unknown id; an authorization of a dead one queues its void, once |
| PaymentEffects.VisitFeeEnds | app/payments/cancellations.py:122-144 | the visit fee is the only charge when the provider says paid; without an answer or a split the reservation is given up and its void queued unless it went through |
| PaymentEffects.PartCaptureSettles | app/payments/service.py:449-467 | a partial capture charges what its price comes to with tax, whatever amount the answer names |
| PaymentEffects.ClientRequestOpens | app/payments/refunds.py:207-229 | a client's request is accepted exactly for a failed service or a double charge, on a payment that can give the amount back; it adds one waiting refund with what was asked for and by whom |
| PaymentEffects.FinanceRefundOpens | app/payments/refunds.py:232-253 | a refund by finance adds one refund with what was asked for; above the cumulative threshold it waits and nothing moves, below it stands as the provider answers |
| PaymentEffects.ApprovalSigns | app/payments/refunds.py:256-277 | exactly when a signature is taken; then the refund carries it, is sent, and stands as the provider answers |
| PaymentEffects.RejectionCloses | app/payments/refunds.py:280-295 | finance turns down exactly what waits for it, and nothing else changes |
| PaymentEffects.RefundTold | app/payments/refunds.py:346-365 | the provider's word moves its own refund and no other; only a success counts, moves the payment unless it is in dispute, and tells the order when all is returned |
| PaymentEffects.RefundSent | app/payments/refunds.py:309-334 | sending an approved refund leaves it as the answer says; on a payment in dispute it fails unsent |
| PaymentEffects.RefundReportFinds | app/payments/refunds.py:368-376 | a report moves the refund with its id, or else the one it names |
| PaymentEffects.OutsideRefundRecorded | app/payments/refunds.py:411-434 | any other is recorded as made outside, with the amount reported up to what is left, unless another refund is open |
| PaymentEffects.ReasonDecidesWhoPays | app/payments/refunds.py:161-176 | a successful refund returns its amount to the customer; for a failed or cheaper service each account gives back the most within its proportion, for other reasons none does |
| PaymentEffects.DisputeReportSettles | app/payments/disputes.py:57-89 | won: back to what the refunds say with the book untouched; lost: charged back up to the disputed amount, from the technician the most within the share if it can be reversed; otherwise in dispute with nothing posted |
| PaymentEffects.DisputeEndSettles | app/payments/service.py:659-675 | a closing without its dispute settles the same way, for all that is left of the charge |
| PaymentEffects.DisputeRowWritten | app/payments/disputes.py:62-87 | each report writes its own dispute row and no other: first amount kept, state as reported, closed exactly when it settled |
| PaymentEffects.RecoveredRecorded | app/payments/disputes.py:118-121 | the row of a lost dispute says what the book says was taken back from the technician |
| PaymentTheorems.AllocationFair | app/payments/refunds.py:161-176 | a refund takes from each account the largest whole number of cents within its proportion, or nothing when the policy spares it; split in full it costs the platform zero to three cents |
| PaymentTheorems.RunConserves | app/payments/ledger.py:37-85 | on every run each group sums to zero, the customer's balance is what was given back less what was captured and never positive, credited accounts stay non-negative, and the capture is that of the effective breakdown |
| PaymentTheorems.RunStatusTellsAmounts | app/payments/refunds.py:142-146 | in every reachable state the status tells how captured and refunded compare, at most one refund is open, and what can be refunded is not negative |
| PaymentTheorems.RunNeedsSecondSignature | app/payments/refunds.py:116-118 | on every run, refunds without a high signature of somebody else stay within the threshold in total, whatever its value and however they are split, and nobody signs a refund of their own |
| PaymentTheorems.RunRecoversProportionally | app/payments/refunds.py:161-176 | what refunds recover from the technician is within the proportion refunded |
| PaymentTheorems.ReversalsLeaveAtMost | app/payments/refunds.py:161-176 | n reversing refunds that return the whole charge leave the technician at most n - 1 cents |
| PaymentTheorems.RunContinues | app/payments/state_machine.py:39-40 | on every run the book is append-only, a capture is its first group, and a final state is final |
| PaymentTheorems.OrderDoesNotMatter | app/payments/service.py:279-317 | reports on the way to one charge may be permuted, repeated and late, those before it carrying any amount: same payment, furthest state, one capture if it was reported |
| PaymentTheorems.LostCaptureRecovered | app/payments/service.py:581-606 | a partial capture whose answer is lost is rebuilt by the later report into exactly the payment the answer would have given |
| PaymentTheorems.CancelFailsInProcess | app/payments/state_machine.py:22-36 | giving up a reservation fails exactly when the payment is in process |
| PaymentTheorems.LostDisputeTakes | app/payments/disputes.py:92-127 | a lost dispute takes what is left up to the disputed amount, from the technician the largest share in whole cents if it can be reversed, and the rest from the platform |
| Orders.TransitionExactly | app/orders/state_machine.py:52-133 | a transition goes through exactly for those who may bring the order there, said state by state, on the version they saw |
| Orders.TransitionKeepsAssigned | app/orders/state_machine.py:116-172 | an order has a technician from acceptance on, and none in the pool |
| Orders.AcceptedByEligible | app/orders/state_machine.py:95-109 | only a technician the order is open to takes it from the pool |
| ServiceDesks.ServiceDesk.MoveTo | app/orders/state_machine.py:116-172 | checks pair, version and actor, and writes what the state asks for |
| ServiceDesks.ServiceDesk.CallPayment | app/payments/service.py:609-633 | a decline or a lost reservation replaces the payment of a scheduled order, or fails a completed one; captures and full refunds move the order |
| ServiceDesks.ServiceDesk.CancelPayment | app/payments/service.py:377-395 | gives up the live payment if it is not charged yet |
| ServiceDesks.ServiceDesk.SetDate | app/orders/service.py:204-213 | schedules and makes the payment, or keeps the live one |
| ServiceDesks.ServiceDesk.Leave | app/orders/service.py:225-246 | reserves the money once, and marks the departure only when it is reserved |
| ServiceDesks.ServiceDesk.WorkApproved | app/orders/service.py:118-137 | completes the order and, when the money is in, makes it ready for review |
| ServiceDesks.ServiceDesk.ResolveDispute | app/orders/service.py:322-389 | releases, refunds in part or in full, with the second signature where it applies |
| ServiceDesks.ServiceDesk.Transact | app/payments/webhooks.py:113-129 | every use case either reaches its specified desk or changes nothing |
| DeskTheorems.StepSound | app/orders/service.py:118-389 | every use case keeps the desk sound and only moves payments forward |
| DeskTheorems.RunChargesOnce | app/payments/service.py:95-101 | on every run an order has at most one live service payment, and at most one ever posts a capture |
| DeskTheorems.DeadStaysDead | app/payments/service.py:320-357 | a failed or cancelled payment keeps its state and its book over every later run |
| DeskTheorems.ReplacementAdmitted | app/payments/service.py:197-205 | the unique index never refuses a replacement, which has the same frozen breakdown and is the live one |
| DeskTheorems.ReviewedWasCharged | app/reviews/service.py:98-101 | on every run a rated order was charged |
| DeskTheorems.ApprovalAndCaptureCommute | app/orders/service.py:118-137 | approval, with or without the version it was made on, and capture in either order end in the same desk, ready for review |
| DeskEffects.PartialResolutionReleases | app/orders/service.py:360-370 | settling a dispute over reserved money charges the rest of it: the client is let go of exactly what was agreed or one cent more, and a large amount needs the high permission |
| DeskEffects.PartialResolutionRefunds | app/orders/service.py:350-359 | over charged money it opens a refund of what was agreed, in the name of who settled it, waiting or sent as the threshold says |
| DeskEffects.FullResolutionRefunds | app/orders/service.py:371-375 | a full resolution of a charged order opens a refund of all that is left, and the order is refunded once it is done |
| DeskEffects.FullResolutionCancels | app/orders/service.py:371-380 | of a reserved one it cancels the order and gives the reservation up, exactly when none is in process and a large one has the high permission |
| DeskEffects.ReleaseResolutionCompletes | app/orders/service.py:342-349 | releasing the money needs a charge or a reservation, and moves no money itself |
| DeskEffects.AcceptFixesPrice | app/orders/service.py:179-201 | an order is taken exactly from the pool by an eligible technician it is open to, at the price they offered |
| DeskEffects.ScheduleQuotes | app/payments/service.py:169-194 | scheduling makes a payment for the accepted price with the split of the rule given, or keeps the live one |
| DeskEffects.DepartureReserved | app/orders/service.py:225-246 | the technician leaves exactly when the money is reserved; a declined or open answer keeps them at home |
| DeskEffects.StartNeedsReservation | app/orders/service.py:249-255 | work starts only with the money reserved, by the order's technician, still approved |
| DeskEffects.ReleaseReturns | app/orders/service.py:295-319 | an order let go returns to the pool without a price, its reservation given up and its void queued if needed |
| DeskEffects.WithdrawReturns | app/orders/service.py:216-222 | a technician who withdraws leaves the order as the platform would have left it |
| DeskEffects.PaymentMovesOrder | app/orders/service.py:267-292 | a charge moves only a completed order on, a decline fails it, a full refund closes it, and a lost reservation moves nothing |
| DeskEffects.ActionReaches | app/orders/service.py:131-264 | each action brings the order where it aims, and only for those who may bring it there |
| DeskEffects.CancellationCharges | app/payments/cancellations.py:114-144 | a client who cancels before the technician leaves is charged nothing; afterwards the visit fee |
| DeskEffects.RefundAskedInTime | app/payments/refunds.py:207-229 | a client asks a refund exactly of an own charged order, in time, for a reason clients may give, and it is recorded as asked |
| DeskEffects.DisputeInTime | app/orders/service.py:155-164 | a client may dispute exactly from the start of the work, and after the charge only in the window |
| DeskEffects.RunRatesOnce | app/reviews/service.py:87-123 | however an order goes on after its rating, disputes and resolutions included, it is never rated again |
| DeskTheorems.PartialResolutionCharges | app/orders/service.py:358-369 | a partial settlement makes the order ready for review in any case, and charged exactly when the answer says paid |
| Kyc.TransitionExactly | app/kyc/state_machine.py:53-160 | a transition goes through exactly for those who may bring the case there, with a reason where one is needed, and says who is in charge and when a new cycle starts |
| Kyc.TransitionKeepsInCharge | app/kyc/state_machine.py:129-233 | a case has somebody in charge exactly while under review |
| Kyc.ApprovalByReviewer | app/kyc/state_machine.py:53-66 | only a supervisor, or whoever has the case assigned, approves |
| Marketplace.LetGoFails | app/payments/service.py:377-395 | an order fails to be let go exactly when its reservation is in process |
| MarketStores.MarketStore.ReturnOrders | app/orders/service.py:295-305 | the first pass returns every held order to the pool, and fails exactly when one reservation is in process |
| MarketStores.MarketStore.OpenReservations | app/orders/service.py:306-318 | the second pass opens the reservations in the pool, those just returned included |
| MarketStores.MarketStore.ReleaseTechnicianOrders | app/orders/service.py:295-319 | both passes together let the technician go from every order at once, or fail |
| MarketStores.MarketStore.RemoveApproval | app/kyc/decisions.py:305-317 | suspension and expiry move the state, release the orders and block the accounts |
| MarketStores.MarketStore.ExpireApprovals | app/kyc/decisions.py:355-377 | every approved identity that is due expires; one failed release undoes the batch |
| MarketStores.MarketStore.BlockAccounts | app/payments/accounts.py:249-257 | blocks every account of the technician without overwriting a name review |
| MarketStores.MarketStore.UnblockAccounts | app/payments/accounts.py:271-278 | removes only blocks that the identity put |
| MarketStores.MarketStore.SyncAccount | app/payments/accounts.py:190-236 | applies the provider's state and a name mismatch, and releases the orders of an account that can no longer be paid |
| MarketStores.MarketStore.BlockAccount | app/payments/accounts.py:260-268 | blocks a deauthorized account and releases its owner's orders |
| MarketStores.MarketStore.ResolveNameReview | app/payments/accounts.py:281-307 | clearing a name brings back a hidden identity block; rejecting it releases the orders |
| MarketStores.MarketStore.DeactivateUser | app/api/routes/users.py:115-130 | deactivation releases the technician's orders |
| MarketStores.MarketStore.RunOverOrders | app/payments/service.py:470-533 | the jobs that capture, approve, expire or resend over all orders leave unanswered rows for the next round, and undo the round on any other failure |
| MarketStores.MarketStore.ReleaseStaleClaims | app/kyc/decisions.py:337-352 | abandoned reviews go back to the queue one by one |
| MarketTheorems.SyncLetsGo | app/payments/accounts.py:161-236 | a synchronised account can be paid exactly when the provider says so, its state leads there and nothing blocks it; when it no longer can, its owner holds nothing unstarted, and the report fails exactly when such an order has a reservation in process |
| MarketEffects.StepExplainsAccounts | app/payments/accounts.py:148-307 | on every step an account keeps owner and provider, its state moves only by a report along the table, and its block changes only for one of six reasons, from and to what each allows |
| MarketEffects.RunKeepsLastingBlocks | app/payments/accounts.py:249-307 | over every run an account with a rejected name, or deauthorized by the provider, keeps exactly that block |
| MarketEffects.RunKeepsNameMismatch | app/payments/accounts.py:249-307 | a name mismatch blocks the account until its name is reviewed or the provider deauthorizes it |
| MarketEffects.ApprovalUnblocks | app/payments/accounts.py:271-278 | an approval lifts exactly the blocks that the state of this identity put, and touches nothing else |
| MarketEffects.TakeAwayBlocks | app/payments/accounts.py:249-257 | a suspension or an expiry blocks the technician's accounts for its own reason, unless another one holds |
| MarketEffects.NameReviewSettles | app/payments/accounts.py:281-307 | clearing a name brings back the block the identity was hiding behind it; rejecting it blocks for good |
| MarketEffects.DeauthorizationBlocks | app/payments/accounts.py:260-268 | a deauthorized account is blocked, and a rejected name stays the reason |
| MarketEffects.SyncWrites | app/payments/accounts.py:161-216 | a report takes the account where it says if the table lets it, notes the name's verdict, and blocks a new mismatch |
| MarketEffects.EligibilityEarned | app/payments/accounts.py:80-84 | a technician becomes eligible only by a complete approval, a report that their account can be paid, or a cleared name |
| MarketEffects.ActionsNeedEntitlement | app/orders/service.py:64-70 | accepting and scheduling need an eligible technician, reserving a payable one, starting an approved one |
| MarketEffects.RunKeepsOneAccount | app/payments/accounts.py:114-130 | on every run a technician has at most one account with each provider |
| MarketEffects.ExpiryExpires | app/kyc/decisions.py:355-377 | the round takes exactly the identities that were approved and due |
| MarketEffects.StaleClaimsReturn | app/kyc/decisions.py:337-352 | the round returns exactly the stale reviews to the queue, with nobody in charge |
| MarketEffects.DeactivationLetsGo | app/api/routes/users.py:115-129 | deactivation fails exactly on a reservation in process; then the user holds nothing unstarted |
| MarketEffects.PlacedForEligible | app/orders/service.py:86-115 | an order is reserved for a technician exactly when available and eligible |
| MarketEffects.RoundPerOrder | app/payments/service.py:470-533 | in a round each order is worked on as it was before it, and the round fails exactly when a chore fails for another reason than a silent provider |
| MarketEffects.CaptureRound | app/payments/service.py:470-488 | a completed order with reserved money is charged and made ready for its rating; the others stay as they were |
| MarketEffects.DeadlineRound | app/payments/service.py:491-533 | before a reservation expires its order is approved, or charged although in dispute; the others stay as they were |
| MarketEffects.DueRounds | app/orders/service.py:395-430 | exactly the due orders are approved for a silent client, and exactly the due requests cancelled |
| MarketEffects.RetryRound | app/payments/refunds.py:437-450 | the round sends the first approved refund of a payment, and no other |
| MarketTheorems.RunHoldsCriticalRule | migrations/versions/0008_pagos_fase3_autorizacion_y_regla_critica.py:24-70 | on every run, each accepted or scheduled order and each reservation in the pool belongs to an approved, active, payable technician |
| MarketTheorems.RunTracksBlocks | app/payments/accounts.py:249-307 | on every run a suspended or expired identity has its accounts blocked, and an identity block means not approved, even behind a name mismatch |
| MarketTheorems.RunKeepsOrdersSound | app/orders/service.py:295-319 | on every run of the market each order stays sound: one live payment, charged at most once |
| MarketTheorems.SuspensionLetsGo | app/kyc/decisions.py:305-317 | a suspension succeeds exactly when the state may move and no reservation to release is in process; then nothing unstarted is held and unrelated orders are untouched |
| Reports.ReportBalances | app/payments/reports.py:59-68 | for every run and every window of whole transactions, charges less what was given back equal what each party keeps less what the platform absorbed |
| Reports.ReportAgreesWithPayment | app/payments/reports.py:59-80 | over all time what the report sums up as charged, refunded and lost for one payment equals its own amounts, and it counts the payment once |
| Reports.MetricsExplained | app/payments/reports.py:52-68 | each figure of the report of one payment is its own part: what the capture gave that party less what refunds and a lost dispute took back from it |
| Reports.BalancesAddUp | app/payments/ledger.py:88-97 | a balance over a window, of all payments or of one, is the sum of those of its parts wherever it is cut |
| Reports.BalanceOfPayment | app/payments/ledger.py:88-97 | in every reachable journal the balance filtered by a payment is that of its own book, and credited accounts are not negative |
| Reports.CapturedOnceInTime | app/payments/reports.py:80 | all entries of a capture carry one instant, so groups count each captured payment once |
| Reports.Summary | app/payments/reports.py:71-101 | each group has its own line, and the totals added from the lines are those of the window, the distinct count included |
| KeyRotation.RunStaysReadable | app/security/encryption_service.py:171-276 | over every run of activations, rewraps, revocations and rekeys, the last two kinds of writes by processes whose own key is registered as it is and not revoked, each unshredded case opens to its original contents, and no data key is under a revoked key |
| KeyRotation.ActivationRetires | app/security/encryption_service.py:171-199 | exactly when a key may be activated; then the one before only decrypts and every other keeps its state |
| KeyRotation.RunKeepsOneActive | app/security/encryption_service.py:171-246 | on every run at most one key is active, keys stay themselves, and a revoked one never comes back |
| KeyRotation.RevokedIsUnused | app/security/encryption_service.py:233-246 | a key is revoked exactly when it is not the active one and wraps no data key |
| KeyRotation.RekeyReplaces | app/security/encryption_service.py:249-276 | a rekey seals everything in the case with the new data key, and touches no other case |
| KeyRotation.RekeySoundExactly | app/security/encryption_service.py:249-276 | a rekey by a process leaves the case sound exactly when its active key is registered as it is and not revoked |
| KeyRotation.ShreddedIsGone | app/core/crypto.py:212-217 | once shredded, no run of operations makes a case open again |
| KeyVaults.KeyVault.RotateKeys | app/security/encryption_service.py:202-225 | the batched loop ends, counts what it rewrapped, leaves committed batches behind an error, and with nothing locked leaves nothing pending |
| KeyVaults.KeyVault.RekeyProfile | app/security/encryption_service.py:249-276 | every field and file key is opened with the old key and sealed with the new one, or nothing changes |
| KeyVaults.KeyVault.RevokeKey | app/security/encryption_service.py:233-246 | refuses the active key and a key still in use |
| KeyVaults.KeyVault.ActivateKey | app/security/encryption_service.py:171-199 | activates the process's key and retires the one before |
| KeyVaults.RotatedMayBeRevoked | app/security/encryption_service.py:233-246 | after a complete rotation every other key may be revoked |
| KeyVaults.RotationProper | app/security/encryption_service.py:202-225 | a rotation by a process whose key is registered as it is and not revoked is a run the readability theorem covers |
| Reputation.Recompute | app/reviews/reputation.py:74-89 | ageing each weight, grouping by client and capping each gives the weighted rating |
| Reputation.AgedAdmitted | app/reviews/reputation.py:74-77 | reviews stay admitted as they age, and never weigh more than they did |
| Reputation.OlderWeighsLess | app/reviews/reputation.py:74-76 | of two reviews of one weight the older weighs less exactly when more has decayed; one dated ahead counts as new |
| Reputation.UnratedIsPrior | app/reviews/reputation.py:78-89 | with no review that weighs something the rating is the prior's mean |
| Reputation.RatingOnScale | app/reviews/reputation.py:74-89 | the rating lies between one and five |
| Reputation.OneClientMovesLittle | app/reviews/reputation.py:78-88 | adding or removing a client with any number of reviews moves the rating by 4 / (C + 1) at most |
| Reputation.FiveStarsNeverLower | app/reviews/reputation.py:78-88 | a new five-star review never lowers the rating, under, over and across the cap |
| Reputation.OneStarNeverRaises | app/reviews/reputation.py:78-88 | a new one-star review never raises it |
| Reputation.ReliabilityIsShare | app/reviews/reputation.py:112-113 | reliability is a share, and one exactly without withdrawals and lost disputes |
| Reputation.ExperienceIsShare | app/reviews/reputation.py:114 | experience is a share, and one exactly from a hundred services on |
| Reputation.ScoreWeights | app/reviews/reputation.py:112-118 | fifteen points for each star above one, twenty for reliability, twelve for a hundred services, eight for two years |
| Reputation.TenureGrows | app/reviews/reputation.py:115-117 | tenure grows with the days since the approval up to two years of thirty-day months |
| Reputation.StrikesCost | app/reviews/reputation.py:119 | each of the first three strikes costs ten points, and the score does not go below zero |
| Reputation.ScoreNeedsOnlyTheFloor | app/reviews/reputation.py:112-118 | the parts weigh one hundred in all, so the score lies in range and only strikes reach a limit |
| Reputation.ScoreFollowsWork | app/reviews/reputation.py:112-118 | one more service completed never lowers the score; one more withdrawal or lost dispute never raises it |
| AuditChain.AuditLog.WriteAudit | app/audit/writer.py:80-125 | the new row is linked to the last one, and an intact log stays intact |
| AuditChain.AuditLog.VerifyChain | app/audit/writer.py:128-143 | the batched check equals a single pass for every batch size but zero, which reports nothing |
| AuditChain.HonestLogVerifies | app/audit/writer.py:80-143 | every log that was only appended to verifies, whatever ids were lost between its rows, and holds the contents in order |
| AuditChain.BrokenNowhere | app/audit/writer.py:128-143 | no broken id is reported exactly when every link holds |
| AuditChain.SameEndSameStory | app/audit/writer.py:46-77 | two intact logs that end in the same digest have the same rows, or the digest collides |
| AuditChain.RemovalDetected | app/audit/writer.py:128-143 | removing rows goes unnoticed exactly when they are the last ones |
| AuditChain.EditDetected | app/audit/writer.py:128-143 | changing a row goes unnoticed exactly when it is the last one and its digest is taken anew |

## Left out

- HTTP routes, schemas, authentication, rate limits, configuration parsing, logging and notifications: plumbing around the modelled calls.
- The provider adapters: a reported state and amount, or no answer, is a parameter of each call.
- SQL locking and savepoints as mechanisms: a call is one atomic step, so a row cannot change between being picked and being locked, and the branches that skip such a row are not modelled.
- The counters that jobs return, their row limits, and retry_voids, whose effect on a payment is the clearing of its queued void.
- Outbox events, except the void queued for a dead payment.
- Timestamps, except the validity of rules and the instant of a posting: windows for departures, disputes and refunds are parameters.
- Version counters of payments and accounts: they only detect lost updates.
- The separate payment of a late cancellation fee: another payment with its own file and no order effects.
- A refund report whose id belongs to a refund of another payment: reports are modelled per payment.
- The unused provider-fee account of the book: nothing posts to it.
- Idempotency keys, webhook backoff and dead letters: repeating a report is modelled, when it is retried is not.
- A change of the second-signature threshold during a run: it is any value, the same throughout.
- Availability and categories of technicians, the price range of an acceptance and document checks of an approval: parameters that may refuse the call.
- Text normalisation of names: whether the provider's name matches is a parameter.
- Reputation.Recompute: exact real arithmetic, and the half-life power is any function of the age that never rises and stays between zero and one; rounding of floats and the decimals of the stored columns are not modelled.
- Reputation.ScoreNeedsOnlyTheFloor: the logarithm is any increasing function that is zero at one, and ages in months are exact.
- AuditChain.SameEndSameStory: the digest is any function of a row's content and link, without SHA-256 or the canonical text.
- KeyRotation.RunStaysReadable: ciphers are symbolic and fingerprints are the keys themselves; blind indexes and file contents are not modelled, and new cases enter as any sound start.
- FeeCoverage.CheckBoundsShortfall: bounds the shortfall instead of stating full coverage, which is false; FeeCoverage.SpareCovers has a condition under which it holds.
- FeeCoverage.CheckCoversWithinThreeCents: likewise at the default fee rates, with the exact condition in FeeCoverage.ThreeSpareCentsExactly.
