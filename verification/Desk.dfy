/**
 One order with every service payment ever made for it. Each use case is one transaction over both: it
 commits a new desk or leaves the old one.
 */
module Desk {
  import opened Results
  import opened Commission
  import O = Orders
  import P = Payments

  datatype Desk = Desk(order: O.Order, payments: seq<P.Payment>)

  /** The live payment of the order: the index admits one. */
  function Active(payments: seq<P.Payment>): (found: Option<nat>)
    ensures found.Some? ==> found.value < |payments| && P.Live(payments[found.value].status)
    ensures found.None? ==> forall i :: 0 <= i < |payments| ==> !P.Live(payments[i].status)
  {
    if payments == [] then None
    else
      var n := |payments| - 1;
      var found := Active(payments[..n]);
      if found.Some? then found else if P.Live(payments[n].status) then Some(n) else None
  }

  function WithOrder(d: Desk, order: Result<O.Order>): Result<Desk> {
    if order.Ok? then Ok(d.(order := order.value)) else Err(order.error)
  }

  function MoveOrder(d: Desk, to: O.OrderStatus, actor: O.Actor, expected: Option<nat> := None): Result<Desk> {
    WithOrder(d, O.Transition(d.order, to, actor, expected))
  }

  /** A new payment; the unique index refuses a second live one. */
  function AddPayment(d: Desk, quote: Breakdown): Result<Desk> {
    if Active(d.payments).Some? then Err(ConstraintViolation)
    else Ok(d.(payments := d.payments + [P.NewPayment(quote)]))
  }

  // ---------------------------------------------------------------------------
  // What payments do to the order
  // ---------------------------------------------------------------------------

  function Captured(d: Desk): Result<Desk> {
    if d.order.status != O.Completed then Ok(d)
    else
      var paid :- MoveOrder(d, O.Paid, O.Job);
      MoveOrder(paid, O.ReadyForReview, O.Job)
  }

  function Declined(d: Desk, quote: Breakdown): Result<Desk> {
    if d.order.status == O.Scheduled then Replaced(d, quote)
    else if d.order.status == O.Completed then MoveOrder(d, O.Failed, O.Job)
    else Ok(d)
  }

  /** A payment with the same frozen breakdown takes the place of the one that died. */
  function Replaced(d: Desk, quote: Breakdown): Result<Desk> {
    var added :- AddPayment(d, quote);
    Ok(added.(order := added.order.(departed := false)))
  }

  function FullyRefunded(d: Desk): Result<Desk> {
    if d.order.status in {O.Disputed, O.ReadyForReview, O.Reviewed} then MoveOrder(d, O.Refunded, O.Job) else Ok(d)
  }

  function AfterPayment(d: Desk, effect: P.Effect, quote: Breakdown): Result<Desk> {
    match effect
    case NoEffect => Ok(d)
    case CaptureConfirmed => Captured(d)
    case PaymentDeclined => Declined(d, quote)
    case ReservationLost(_) => if d.order.status == O.Scheduled then Replaced(d, quote) else Ok(d)
    case FullyRefunded => FullyRefunded(d)
  }

  function OnPayment(d: Desk, i: nat, e: P.Event): Result<Desk> {
    if i >= |d.payments| then Err(NotFound)
    else
      var o :- P.Apply(d.payments[i], e);
      AfterPayment(d.(payments := d.payments[i := o.payment]), o.effect, d.payments[i].quote)
  }

  function CancelForOrder(d: Desk, voided: bool): Result<Desk> {
    var a := Active(d.payments);
    if a.None? || !P.Cancellable(d.payments[a.value].status) then Ok(d)
    else
      var q :- P.Cancel(d.payments[a.value], voided);
      Ok(Desk(d.order.(departed := false), d.payments[a.value := q]))
  }

  // ---------------------------------------------------------------------------
  // Use cases
  // ---------------------------------------------------------------------------

  predicate Confirmed(s: P.PaymentStatus) {
    s == P.Paid || s == P.PartiallyRefunded
  }

  function Accept(d: Desk, technician: nat, price: nat, eligible: bool): Result<Desk> {
    if !eligible then Err(NotEligible)
    else MoveOrder(d.(order := d.order.(price := Some(price))), O.Accepted, O.TechnicianUser(technician))
  }

  /** The payment of a scheduled order: the live one if there is one, else a new one with its frozen split. */
  function CreateForOrder(d: Desk, terms: Option<RuleTerms>, taxes: TaxRates): Result<Desk> {
    if Active(d.payments).Some? then Ok(d)
    else if terms.None? then Err(RuleMissing)
    else
      var quote :- Compute(if d.order.price.Some? then d.order.price.value else 0, terms.value, taxes);
      AddPayment(d, quote)
  }

  function Schedule(d: Desk, technician: nat, eligible: bool, terms: Option<RuleTerms>, taxes: TaxRates): Result<Desk> {
    if !O.Visible(d.order, O.TechnicianUser(technician)) then Err(NotFound)
    else if !eligible then Err(NotEligible)
    else
      var moved :- MoveOrder(d, O.Scheduled, O.TechnicianUser(technician));
      CreateForOrder(moved, terms, taxes)
  }

  /** Leaving for the client's home reserves the money; a declined card keeps the technician at home. */
  function Depart(d: Desk, technician: nat, ready: bool, answer: Option<P.Report>): Result<Desk> {
    var a := Active(d.payments);
    if !O.Visible(d.order, O.TechnicianUser(technician)) then Err(NotFound)
    else if d.order.status != O.Scheduled then Err(NotScheduled)
    else if a.None? then Err(NotFound)
    else if d.payments[a.value].status in {P.Authorized, P.Processing} then Ok(Departed(d, a.value))
    else if d.payments[a.value].status != P.Pending then Err(InvalidTransition)
    else if !ready then Err(NotEligible)
    else if answer.None? then Err(ProviderUnavailable)
    else
      var reported :- OnPayment(d, a.value, P.Reported(answer.value));
      Ok(Departed(reported, a.value))
  }

  function Departed(d: Desk, i: nat): Desk {
    if i < |d.payments| && d.payments[i].status == P.Authorized && !d.order.departed then
      d.(order := d.order.(departed := true, version := d.order.version + 1))
    else d
  }

  function Withdraw(d: Desk, technician: nat, voided: bool): Result<Desk> {
    if !O.Visible(d.order, O.TechnicianUser(technician)) then Err(NotFound)
    else
      var cancelled :- CancelForOrder(d, voided);
      MoveOrder(cancelled, O.Requested, O.TechnicianUser(technician))
  }

  /** The platform lets the technician go: the order returns to the pool if it has not started. */
  function Release(d: Desk, voided: bool): Result<Desk> {
    if !O.PreStart(d.order.status) then Ok(d)
    else
      var cancelled :- CancelForOrder(d, voided);
      MoveOrder(cancelled, O.Requested, O.Job)
  }

  /** Starting needs an approved technician, though not any more a payable account. */
  function Start(d: Desk, technician: nat, approved: bool): Result<Desk> {
    var a := Active(d.payments);
    if !O.Visible(d.order, O.TechnicianUser(technician)) then Err(NotFound)
    else if a.None? || d.payments[a.value].status != P.Authorized then Err(NotScheduled)
    else
      var moved :- MoveOrder(d, O.InProgress, O.TechnicianUser(technician));
      if approved then Ok(moved) else Err(NotEligible)
  }

  function AfterCompleted(d: Desk): Result<Desk> {
    var a := Active(d.payments);
    if a.Some? && Confirmed(d.payments[a.value].status) then Captured(d) else Ok(d)
  }

  function Approve(d: Desk, client: nat, expected: Option<nat>): Result<Desk> {
    if !O.Visible(d.order, O.ClientUser(client)) then Err(NotFound)
    else
      var moved :- MoveOrder(d, O.Completed, O.ClientUser(client), expected);
      AfterCompleted(moved)
  }

  function AutoApprove(d: Desk): Result<Desk> {
    if d.order.status != O.AwaitingApproval then Ok(d)
    else
      var moved :- MoveOrder(d, O.Completed, O.Job);
      AfterCompleted(moved)
  }

  /** The client cancels; once the technician is on the way a visit fee may be captured from the reservation. */
  function CancelByClient(d: Desk, client: nat, fee: nat, feeTerms: RuleTerms, answer: Option<P.Report>,
      voided: bool): Result<Desk> {
    var a := Active(d.payments);
    if !O.Visible(d.order, O.ClientUser(client)) then Err(NotFound)
    else
      var moved :- MoveOrder(d, O.Cancelled, O.ClientUser(client));
      if d.order.departed && fee > 0 && a.Some? && d.payments[a.value].status == P.Authorized then
        OnPayment(moved, a.value, P.VisitFee(fee, feeTerms, answer, voided))
      else CancelForOrder(moved, voided)
  }

  function OpenDispute(d: Desk, client: nat, inWindow: bool): Result<Desk> {
    if !O.Visible(d.order, O.ClientUser(client)) then Err(NotFound)
    else if d.order.status in {O.Paid, O.ReadyForReview, O.Reviewed} && !inWindow then Err(WindowClosed)
    else MoveOrder(d, O.Disputed, O.ClientUser(client))
  }

  /** The client rates the service, once, and only when the provider confirmed its payment. */
  function Review(d: Desk, client: nat): Result<Desk> {
    var a := Active(d.payments);
    if d.order.status != O.ReadyForReview then Err(InvalidTransition)
    else if a.None? || !Confirmed(d.payments[a.value].status) then Err(NotEligible)
    else
      var moved :- MoveOrder(d, O.Reviewed, O.ClientUser(client));
      Ok(moved.(order := moved.order.(reviewed := true)))
  }

  function AskRefund(d: Desk, client: nat, inWindow: bool, cents: Option<int>, reason: P.Reason): Result<Desk> {
    var a := Active(d.payments);
    if !O.Visible(d.order, O.ClientUser(client)) then Err(NotFound)
    else if d.order.status !in {O.Paid, O.ReadyForReview, O.Reviewed} then Err(NotRefundable)
    else if !inWindow then Err(WindowClosed)
    else if P.PolicyOf(reason).None? || !P.PolicyOf(reason).value.clientMayRequest then Err(InvalidReason)
    else if a.None? then Err(NotRefundable)
    else OnPayment(d, a.value, P.ClientRequest(client, cents, reason))
  }

  // ---------------------------------------------------------------------------
  // Resolving a client's dispute
  // ---------------------------------------------------------------------------

  datatype Resolution = ReleasePayment | PartialRefund | FullRefund

  function AfterPaymentStatus(order: O.Order): O.OrderStatus {
    if order.reviewed then O.Reviewed else O.ReadyForReview
  }

  function ResolveRelease(d: Desk): Result<Desk> {
    var a := Active(d.payments);
    if a.Some? && Confirmed(d.payments[a.value].status) then MoveOrder(d, AfterPaymentStatus(d.order), O.AdminUser)
    else if a.Some? && d.payments[a.value].status == P.Authorized then
      var moved :- MoveOrder(d, O.Completed, O.AdminUser);
      AfterCompleted(moved)
    else Err(NotFound)
  }

  /** Charged already: a refund. Only reserved: the part that is due is captured and the rest is let go. */
  function ResolvePartial(d: Desk, admin: P.Actor, cents: Option<int>, answer: Option<P.Report>,
      refunded: P.RefundAnswer): Result<Desk> {
    var a := Active(d.payments);
    if a.None? || cents.None? then Err(InvalidAmount)
    else
      var p := d.payments[a.value];
      if Confirmed(p.status) then
        if !(0 < cents.value < p.captured - p.refunded) then Err(InvalidAmount)
        else
          var done :- OnPayment(d, a.value, P.FinanceRefund(admin, cents, P.ServiceDeficient, P.FromDispute, refunded));
          MoveOrder(done, AfterPaymentStatus(d.order), O.AdminUser)
      else if p.status == P.Authorized && 0 < cents.value < p.amount then
        if cents.value > P.HIGH_REFUND_CENTS && !admin.mayApproveHigh then Err(Forbidden)
        else
          var price := PriceForCharge(p.amount - cents.value, p.quote.taxes.serviceBp);
          var done :- OnPayment(d, a.value, P.PartCapture(price, None, answer));
          MoveOrder(done, AfterPaymentStatus(d.order), O.AdminUser)
      else Err(InvalidAmount)
  }

  function ResolveFull(d: Desk, admin: P.Actor, refunded: P.RefundAnswer, voided: bool): Result<Desk> {
    var a := Active(d.payments);
    if a.Some? && Confirmed(d.payments[a.value].status) then
      OnPayment(d, a.value, P.FinanceRefund(admin, None, P.ServiceNotProvided, P.FromDispute, refunded))
    else if a.Some? && P.Cancellable(d.payments[a.value].status) && d.payments[a.value].amount > P.HIGH_REFUND_CENTS
            && !admin.mayApproveHigh then Err(Forbidden)
    else
      var cancelled :- CancelForOrder(d, voided);
      MoveOrder(cancelled, O.Cancelled, O.AdminUser)
  }

  function Resolve(d: Desk, admin: P.Actor, outcome: Resolution, cents: Option<int>, answer: Option<P.Report>,
                   refunded: P.RefundAnswer, voided: bool): Result<Desk> {
    if d.order.status != O.Disputed then Err(InvalidTransition)
    else match outcome
      case ReleasePayment => ResolveRelease(d)
      case PartialRefund => ResolvePartial(d, admin, cents, answer, refunded)
      case FullRefund => ResolveFull(d, admin, refunded, voided)
  }

  // ---------------------------------------------------------------------------
  // Runs
  // ---------------------------------------------------------------------------

  datatype Action =
    | Accepting(technician: nat, price: nat, eligible: bool)
    | Scheduling(technician: nat, eligible: bool, terms: Option<RuleTerms>, taxes: TaxRates)
    | Departing(technician: nat, ready: bool, answer: Option<P.Report>)
    | Withdrawing(technician: nat, voided: bool)
    | Releasing(voided: bool)
    | Starting(technician: nat, approved: bool)
    | Finishing(technician: nat)
    | Approving(client: nat, expected: Option<nat>)
    | AutoApproving
    | Cancelling(client: nat, fee: nat, feeTerms: RuleTerms, answer: Option<P.Report>, voided: bool)
    | Disputing(client: nat, inWindow: bool)
    | Resolving(admin: P.Actor, outcome: Resolution, cents: Option<int>, answer: Option<P.Report>,
        refunded: P.RefundAnswer, voided: bool)
    | Reviewing(client: nat)
    | Expiring
    | AskingRefund(client: nat, inWindow: bool, cents: Option<int>, reason: P.Reason)
    | ToPayment(payment: nat, event: P.Event)

  /** What reaches a payment on its own: reports of the provider, finance and the jobs. */
  predicate Direct(e: P.Event) {
    !e.PartCapture? && !e.VisitFee? && !e.Cancellation? && !e.ClientRequest?
  }

  function Do(d: Desk, a: Action): Result<Desk> {
    match a
    case Accepting(technician, price, eligible) => Accept(d, technician, price, eligible)
    case Scheduling(technician, eligible, terms, taxes) => Schedule(d, technician, eligible, terms, taxes)
    case Departing(technician, ready, answer) => Depart(d, technician, ready, answer)
    case Withdrawing(technician, voided) => Withdraw(d, technician, voided)
    case Releasing(voided) => Release(d, voided)
    case Starting(technician, approved) => Start(d, technician, approved)
    case Finishing(technician) => MoveOrder(d, O.AwaitingApproval, O.TechnicianUser(technician))
    case Approving(client, expected) => Approve(d, client, expected)
    case AutoApproving => AutoApprove(d)
    case Cancelling(client, fee, feeTerms, answer, voided) => CancelByClient(d, client, fee, feeTerms, answer, voided)
    case Disputing(client, inWindow) => OpenDispute(d, client, inWindow)
    case Resolving(admin, outcome, cents, answer, refunded, voided) =>
      Resolve(d, admin, outcome, cents, answer, refunded, voided)
    case Reviewing(client) => Review(d, client)
    case Expiring => if d.order.status == O.Requested then MoveOrder(d, O.Cancelled, O.Job) else Ok(d)
    case AskingRefund(client, inWindow, cents, reason) => AskRefund(d, client, inWindow, cents, reason)
    case ToPayment(i, e) => if Direct(e) then OnPayment(d, i, e) else Err(Forbidden)
  }

  function Step(d: Desk, a: Action): Desk {
    var r := Do(d, a);
    if r.Ok? then r.value else d
  }

  function Run(d: Desk, actions: seq<Action>): Desk
    decreases |actions|
  {
    if actions == [] then d else Run(Step(d, actions[0]), actions[1..])
  }

  /** A request of a client, open to everybody or reserved for one technician. */
  function NewDesk(client: nat, requested: Option<nat>): Desk {
    Desk(O.Order(client, O.Requested, None, requested, None, false, false, 0), [])
  }
}
