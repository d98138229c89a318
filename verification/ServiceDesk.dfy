/** The use cases of one order, changing its row and its payments in place inside a transaction. */
module ServiceDesks {
  import opened Results
  import opened Commission
  import O = Orders
  import P = Payments
  import opened Desk

  class ServiceDesk {
    var order: O.Order
    var payments: seq<P.Payment>

    function View(): Desk
      reads this
    {
      Desk(order, payments)
    }

    /** A step inside a transaction: it reaches the specified desk, or raises the specified error. */
    ghost predicate Ran(r: Result<()>, spec: Result<Desk>)
      reads this
    {
      match spec
      case Ok(d) => r.Ok? && View() == d
      case Err(e) => r == Err(e)
    }

    constructor (client: nat, requested: Option<nat>)
      ensures View() == NewDesk(client, requested)
    {
      order, payments := O.Order(client, O.Requested, None, requested, None, false, false, 0), [];
    }

    method MoveTo(to: O.OrderStatus, actor: O.Actor, expected: Option<nat> := None) returns (r: Result<()>)
      modifies this`order
      ensures Ran(r, MoveOrder(old(View()), to, actor, expected))
    {
      hide O.AllowedTo, O.Caps;
      var allowed := O.AllowedTo(order.status, to);
      if allowed == {} { return Err(InvalidTransition); }
      if expected.Some? && expected.value != order.version { return Err(StaleVersion); }
      if O.Caps(actor, order, to) * allowed == {} { return Err(Forbidden); }
      if to == O.Accepted && actor.TechnicianUser? {
        order := order.(technician := Some(actor.id));
      } else if to == O.Requested {
        order := order.(technician := None, price := None);
      }
      order := order.(status := to, version := order.version + 1);
      return Ok(());
    }

    method Insert(quote: Breakdown) returns (r: Result<()>)
      modifies this`payments
      ensures Ran(r, AddPayment(old(View()), quote))
    {
      if Active(payments).Some? { return Err(ConstraintViolation); }
      payments := payments + [P.NewPayment(quote)];
      return Ok(());
    }

    method Replace(quote: Breakdown) returns (r: Result<()>)
      modifies this
      ensures Ran(r, Replaced(old(View()), quote))
    {
      var _ :- Insert(quote);
      order := order.(departed := false);
      return Ok(());
    }

    method OnCaptured() returns (r: Result<()>)
      modifies this`order
      ensures Ran(r, Captured(old(View())))
    {
      hide O.Transition;
      if order.status != O.Completed { return Ok(()); }
      var _ :- MoveTo(O.Paid, O.Job);
      r := MoveTo(O.ReadyForReview, O.Job);
    }

    /** One call on one payment, and what it asks of the order. */
    method CallPayment(i: nat, e: P.Event) returns (r: Result<()>)
      modifies this
      ensures Ran(r, OnPayment(old(View()), i, e))
    {
      hide P.Apply, O.Transition, Captured, Replaced;
      if i >= |payments| { return Err(NotFound); }
      var quote := payments[i].quote;
      var o :- P.Apply(payments[i], e);
      payments := payments[i := o.payment];
      match o.effect {
        case NoEffect => r := Ok(());
        case CaptureConfirmed => r := OnCaptured();
        case PaymentDeclined =>
          if order.status == O.Scheduled { r := Replace(quote); }
          else if order.status == O.Completed { r := MoveTo(O.Failed, O.Job); }
          else { r := Ok(()); }
        case ReservationLost(_) =>
          if order.status == O.Scheduled { r := Replace(quote); } else { r := Ok(()); }
        case FullyRefunded =>
          if order.status in {O.Disputed, O.ReadyForReview, O.Reviewed} { r := MoveTo(O.Refunded, O.Job); }
              else { r := Ok(()); }
      }
    }

    method CancelPayment(voided: bool) returns (r: Result<()>)
      modifies this
      ensures Ran(r, CancelForOrder(old(View()), voided))
    {
      hide P.Cancel;
      var a := Active(payments);
      if a.None? || !P.Cancellable(payments[a.value].status) { return Ok(()); }
      var q :- P.Cancel(payments[a.value], voided);
      payments := payments[a.value := q];
      order := order.(departed := false);
      return Ok(());
    }

    // -------------------------------------------------------------------------
    // Use cases
    // -------------------------------------------------------------------------

    method TakeOrder(technician: nat, price: nat, eligible: bool) returns (r: Result<()>)
      modifies this
      ensures Ran(r, Accept(old(View()), technician, price, eligible))
    {
      hide O.Transition;
      if !eligible { return Err(NotEligible); }
      order := order.(price := Some(price));
      r := MoveTo(O.Accepted, O.TechnicianUser(technician));
    }

    method SetDate(technician: nat, eligible: bool, terms: Option<RuleTerms>, taxes: TaxRates) returns (r: Result<()>)
      modifies this
      ensures Ran(r, Schedule(old(View()), technician, eligible, terms, taxes))
    {
      hide O.Transition, Compute, AddPayment;
      if !O.Visible(order, O.TechnicianUser(technician)) { return Err(NotFound); }
      if !eligible { return Err(NotEligible); }
      var _ :- MoveTo(O.Scheduled, O.TechnicianUser(technician));
      if Active(payments).Some? { return Ok(()); }
      if terms.None? { return Err(RuleMissing); }
      var quote :- Compute(if order.price.Some? then order.price.value else 0, terms.value, taxes);
      r := Insert(quote);
    }

    method Leave(technician: nat, ready: bool, answer: Option<P.Report>) returns (r: Result<()>)
      modifies this
      ensures Ran(r, Depart(old(View()), technician, ready, answer))
    {
      hide OnPayment;
      if !O.Visible(order, O.TechnicianUser(technician)) { return Err(NotFound); }
      if order.status != O.Scheduled { return Err(NotScheduled); }
      var a := Active(payments);
      if a.None? { return Err(NotFound); }
      if payments[a.value].status !in {P.Authorized, P.Processing} {
        if payments[a.value].status != P.Pending { return Err(InvalidTransition); }
        if !ready { return Err(NotEligible); }
        if answer.None? { return Err(ProviderUnavailable); }
        var _ :- CallPayment(a.value, P.Reported(answer.value));
      }
      if a.value < |payments| && payments[a.value].status == P.Authorized && !order.departed {
        order := order.(departed := true, version := order.version + 1);
      }
      return Ok(());
    }

    method StepBack(technician: nat, voided: bool) returns (r: Result<()>)
      modifies this
      ensures Ran(r, Withdraw(old(View()), technician, voided))
    {
      hide O.Transition, CancelForOrder;
      if !O.Visible(order, O.TechnicianUser(technician)) { return Err(NotFound); }
      var _ :- CancelPayment(voided);
      r := MoveTo(O.Requested, O.TechnicianUser(technician));
    }

    method LetGo(voided: bool) returns (r: Result<()>)
      modifies this
      ensures Ran(r, Release(old(View()), voided))
    {
      hide O.Transition, CancelForOrder;
      if !O.PreStart(order.status) { return Ok(()); }
      var _ :- CancelPayment(voided);
      r := MoveTo(O.Requested, O.Job);
    }

    method Begin(technician: nat, approved: bool) returns (r: Result<()>)
      modifies this
      ensures Ran(r, Start(old(View()), technician, approved))
    {
      hide O.Transition;
      if !O.Visible(order, O.TechnicianUser(technician)) { return Err(NotFound); }
      var a := Active(payments);
      if a.None? || payments[a.value].status != P.Authorized { return Err(NotScheduled); }
      var _ :- MoveTo(O.InProgress, O.TechnicianUser(technician));
      if !approved { return Err(NotEligible); }
      return Ok(());
    }

    method WorkApproved(actor: O.Actor, expected: Option<nat>) returns (r: Result<()>)
      modifies this
      ensures var moved := MoveOrder(old(View()), O.Completed, actor, expected);
              Ran(r, if moved.Ok? then AfterCompleted(moved.value) else moved)
    {
      hide O.Transition, Captured;
      var _ :- MoveTo(O.Completed, actor, expected);
      var a := Active(payments);
      if a.Some? && Confirmed(payments[a.value].status) { r := OnCaptured(); } else { r := Ok(()); }
    }

    method CancelFromClient(client: nat, fee: nat, feeTerms: RuleTerms, answer: Option<P.Report>, voided: bool)
        returns (r: Result<()>)
      modifies this
      ensures Ran(r, CancelByClient(old(View()), client, fee, feeTerms, answer, voided))
    {
      hide O.Transition, OnPayment, CancelForOrder;
      if !O.Visible(order, O.ClientUser(client)) { return Err(NotFound); }
      var a, onSite := Active(payments), order.departed;
      var _ :- MoveTo(O.Cancelled, O.ClientUser(client));
      if onSite && fee > 0 && a.Some? && payments[a.value].status == P.Authorized {
        r := CallPayment(a.value, P.VisitFee(fee, feeTerms, answer, voided));
      } else {
        r := CancelPayment(voided);
      }
    }

    method RateService(client: nat) returns (r: Result<()>)
      modifies this
      ensures Ran(r, Review(old(View()), client))
    {
      hide O.Transition;
      if order.status != O.ReadyForReview { return Err(InvalidTransition); }
      var a := Active(payments);
      if a.None? || !Confirmed(payments[a.value].status) { return Err(NotEligible); }
      var _ :- MoveTo(O.Reviewed, O.ClientUser(client));
      order := order.(reviewed := true);
      return Ok(());
    }

    method ResolveDispute(admin: P.Actor, outcome: Resolution, cents: Option<int>, answer: Option<P.Report>,
                          refunded: P.RefundAnswer, voided: bool) returns (r: Result<()>)
      modifies this
      ensures Ran(r, Resolve(old(View()), admin, outcome, cents, answer, refunded, voided))
    {
      hide MoveOrder, AfterCompleted, OnPayment, CancelForOrder, PriceForCharge, Active, AfterPaymentStatus,
          Confirmed, P.Cancellable;
      if order.status != O.Disputed { return Err(InvalidTransition); }
      var a, to := Active(payments), AfterPaymentStatus(order);
      var captured := a.Some? && Confirmed(payments[a.value].status);
      match outcome {
        case ReleasePayment =>
          if captured {
            r := MoveTo(to, O.AdminUser);
          } else if a.Some? && payments[a.value].status == P.Authorized {
            r := WorkApproved(O.AdminUser, None);
          } else {
            r := Err(NotFound);
          }
        case PartialRefund =>
          if a.None? || cents.None? { return Err(InvalidAmount); }
          var p := payments[a.value];
          if captured {
            if !(0 < cents.value < p.captured - p.refunded) { return Err(InvalidAmount); }
            var _ :- CallPayment(a.value, P.FinanceRefund(admin, cents, P.ServiceDeficient, P.FromDispute, refunded));
          } else if p.status == P.Authorized && 0 < cents.value < p.amount {
            if cents.value > P.HIGH_REFUND_CENTS && !admin.mayApproveHigh { return Err(Forbidden); }
            var price := PriceForCharge(p.amount - cents.value, p.quote.taxes.serviceBp);
            var _ :- CallPayment(a.value, P.PartCapture(price, None, answer));
          } else {
            return Err(InvalidAmount);
          }
          r := MoveTo(to, O.AdminUser);
        case FullRefund =>
          if captured {
            r := CallPayment(a.value, P.FinanceRefund(admin, None, P.ServiceNotProvided, P.FromDispute, refunded));
          } else {
            if a.Some? && P.Cancellable(payments[a.value].status) && payments[a.value].amount > P.HIGH_REFUND_CENTS
               && !admin.mayApproveHigh { return Err(Forbidden); }
            var _ :- CancelPayment(voided);
            r := MoveTo(O.Cancelled, O.AdminUser);
          }
      }
    }

    // -------------------------------------------------------------------------
    // Transactions
    // -------------------------------------------------------------------------

    method Perform(action: Action) returns (r: Result<()>)
      modifies this
      ensures Ran(r, Do(old(View()), action))
    {
      hide O.Transition, Accept, Schedule, Depart, Withdraw, Release, Start, AfterCompleted, CancelByClient,
          Resolve, Review, OnPayment;
      match action {
        case Accepting(technician, price, eligible) => r := TakeOrder(technician, price, eligible);
        case Scheduling(technician, eligible, terms, taxes) => r := SetDate(technician, eligible, terms, taxes);
        case Departing(technician, ready, answer) => r := Leave(technician, ready, answer);
        case Withdrawing(technician, voided) => r := StepBack(technician, voided);
        case Releasing(voided) => r := LetGo(voided);
        case Starting(technician, approved) => r := Begin(technician, approved);
        case Finishing(technician) => r := MoveTo(O.AwaitingApproval, O.TechnicianUser(technician));
        case Approving(client, expected) =>
          if !O.Visible(order, O.ClientUser(client)) { return Err(NotFound); }
          r := WorkApproved(O.ClientUser(client), expected);
        case AutoApproving =>
          if order.status == O.AwaitingApproval { r := WorkApproved(O.Job, None); } else { r := Ok(()); }
        case Cancelling(client, fee, feeTerms, answer, voided) =>
          r := CancelFromClient(client, fee, feeTerms, answer, voided);
        case Disputing(client, inWindow) =>
          if !O.Visible(order, O.ClientUser(client)) { return Err(NotFound); }
          if order.status in {O.Paid, O.ReadyForReview, O.Reviewed} && !inWindow { return Err(WindowClosed); }
          r := MoveTo(O.Disputed, O.ClientUser(client));
        case Resolving(admin, outcome, cents, answer, refunded, voided) =>
          r := ResolveDispute(admin, outcome, cents, answer, refunded, voided);
        case Reviewing(client) => r := RateService(client);
        case Expiring =>
          if order.status == O.Requested { r := MoveTo(O.Cancelled, O.Job); } else { r := Ok(()); }
        case AskingRefund(client, inWindow, cents, reason) =>
          if !O.Visible(order, O.ClientUser(client)) { return Err(NotFound); }
          if order.status !in {O.Paid, O.ReadyForReview, O.Reviewed} { return Err(NotRefundable); }
          if !inWindow { return Err(WindowClosed); }
          if P.PolicyOf(reason).None? || !P.PolicyOf(reason).value.clientMayRequest { return Err(InvalidReason); }
          var a := Active(payments);
          if a.None? { return Err(NotRefundable); }
          r := CallPayment(a.value, P.ClientRequest(client, cents, reason));
        case ToPayment(i, e) =>
          if !Direct(e) { return Err(Forbidden); }
          r := CallPayment(i, e);
      }
    }

    /** One use case: it commits, or the order and its payments are as if it had never been asked. */
    method Transact(action: Action) returns (r: Result<()>)
      modifies this
      ensures View() == Step(old(View()), action)
      ensures r.Ok? <==> Do(old(View()), action).Ok?
    {
      hide Do;
      var saved := View();
      r := Perform(action);
      if r.Err? { order, payments := saved.order, saved.payments; }
    }
  }
}
