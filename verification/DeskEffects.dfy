/** What each use case of an order promises: what it charges or gives back, and when it is refused. */
module DeskEffects {
  import opened Results
  import opened Commission
  import O = Orders
  import P = Payments
  import I = PaymentInvariants
  import E = PaymentEffects
  import T = PaymentTheorems
  import opened Desk
  import opened DeskTheorems

  // ---------------------------------------------------------------------------
  // Resolving a client's dispute
  // ---------------------------------------------------------------------------

  /** Only the payment `i` of the desk may differ, and none was added. */
  predicate OnlyPayment(before: seq<P.Payment>, after: seq<P.Payment>, i: nat) {
    && i < |before| == |after|
    && forall k :: 0 <= k < |before| && k != i ==> after[k] == before[k]
  }

  /**
   Settling a dispute over money that is only reserved charges the rest of it: the client is let go of exactly what
   was agreed, or of one cent more at any rate the configuration admits, whatever amount the provider answers.
   */
  lemma PartialResolutionReleases(d: Desk, i: nat, admin: P.Actor, cents: int, answer: P.Report,
                                  refunded: P.RefundAnswer, voided: bool, after: Desk)
    requires Sound(d) && Active(d.payments) == Some(i) && d.payments[i].status == P.Authorized
    requires Resolve(d, admin, PartialRefund, Some(cents), Some(answer), refunded, voided) == Ok(after)
    ensures OnlyPayment(d.payments, after.payments, i)
    ensures 0 < cents < d.payments[i].amount && (cents > P.HIGH_REFUND_CENTS ==> admin.mayApproveHigh)
    ensures var p, q := d.payments[i], after.payments[i];
            && (answer.status == P.Paid ==>
                  && q.status == P.Paid && cents <= p.amount - q.captured
                  && (p.quote.taxes.serviceBp <= 10_000 ==> p.amount - q.captured <= cents + 1))
            && (answer.status != P.Paid ==> q.captured == 0 && q.ledger == [])
    ensures after.order.status == AfterPaymentStatus(d.order)
  {
    hide Resolve, ResolvePartial, P.CapturePart, OnPayment, I.Consistent, AtMostOneLive, PriceForCharge, MoveOrder,
        WithTax, O.Assigned, SomeCharged, Charged;
    var p := d.payments[i];
    PartialResolutionCaptures(d, i, admin, cents, answer, refunded, voided);
    var price := PriceForCharge(p.amount - cents, p.quote.taxes.serviceBp);
    var captured := OnPayment(d, i, P.PartCapture(price, None, Some(answer))).value;
    PartCaptureOnDispute(d, i, price, answer, captured);
    E.PartCaptureSettles(p, price, None, answer);
    if p.quote.taxes.serviceBp <= 10_000 { PartialCaptureReleases(p.amount, cents, p.quote.taxes.serviceBp); }
    PartCaptureCharges(p, price, answer);
    I.CapturePartKeeps(p, price, None, Some(answer));
    if answer.status != P.Paid { Uncharged(captured.payments[i]); }
    MoveReaches(captured, AfterPaymentStatus(d.order));
  }

  lemma PartialResolutionCaptures(d: Desk, i: nat, admin: P.Actor, cents: int, answer: P.Report,
                                  refunded: P.RefundAnswer, voided: bool)
    requires Active(d.payments) == Some(i) && d.payments[i].status == P.Authorized
    requires Resolve(d, admin, PartialRefund, Some(cents), Some(answer), refunded, voided).Ok?
    ensures d.order.status == O.Disputed && 0 < cents < d.payments[i].amount
    ensures cents > P.HIGH_REFUND_CENTS ==> admin.mayApproveHigh
    ensures var price := PriceForCharge(d.payments[i].amount - cents, d.payments[i].quote.taxes.serviceBp);
            var captured := OnPayment(d, i, P.PartCapture(price, None, Some(answer)));
            && captured.Ok?
            && Resolve(d, admin, PartialRefund, Some(cents), Some(answer), refunded, voided)
               == MoveOrder(captured.value, AfterPaymentStatus(d.order), O.AdminUser)
  {
    hide OnPayment, MoveOrder, PriceForCharge;
  }

  lemma Uncharged(p: P.Payment)
    requires I.Consistent(p) && !Charged(p)
    ensures p.captured == 0 && p.ledger == []
  {
    hide I.RefundsAgree, I.ChargebackAgrees;
  }

  /**
   Settling a dispute over money that is already charged opens a refund of what was agreed, in the name of the
   person who settled it, less than what is left; the order is ready for its rating, or rated as it was.
   */
  lemma PartialResolutionRefunds(d: Desk, i: nat, admin: P.Actor, cents: Option<int>, answer: Option<P.Report>,
                                 refunded: P.RefundAnswer, voided: bool, after: Desk)
    requires Sound(d) && Active(d.payments) == Some(i) && Confirmed(d.payments[i].status)
    requires Resolve(d, admin, PartialRefund, cents, answer, refunded, voided) == Ok(after)
    ensures OnlyPayment(d.payments, after.payments, i) && cents.Some?
    ensures var p, q := d.payments[i], after.payments[i];
            && 0 < cents.value < p.captured - p.refunded
            && E.Opened(p, q, cents, P.ServiceDeficient, P.FromDispute, admin.id)
            && q.refunds[|p.refunds|].status
               == if p.refunded + cents.value > P.HIGH_REFUND_CENTS then P.Requested else E.Sent(refunded)
    ensures after.order.status == AfterPaymentStatus(d.order)
  {
    hide P.Apply, I.Consistent, AtMostOneLive, MoveOrder, P.PolicyOf, O.Assigned, SomeCharged, E.Opened, E.MayOpen;
    var e := P.FinanceRefund(admin, cents, P.ServiceDeficient, P.FromDispute, refunded);
    E.FinanceRefundOpens(d.payments[i], admin, cents, P.ServiceDeficient, P.FromDispute, refunded);
    MoveReaches(OnPayment(d, i, e).value, AfterPaymentStatus(d.order));
  }

  /** A full resolution of a charged order opens a refund of all that is left; the order is refunded once it is done. */
  lemma FullResolutionRefunds(d: Desk, i: nat, admin: P.Actor, cents: Option<int>, answer: Option<P.Report>,
                              refunded: P.RefundAnswer, voided: bool, after: Desk)
    requires Sound(d) && Active(d.payments) == Some(i) && Confirmed(d.payments[i].status)
    requires Resolve(d, admin, FullRefund, cents, answer, refunded, voided) == Ok(after)
    ensures OnlyPayment(d.payments, after.payments, i)
    ensures var p, q := d.payments[i], after.payments[i];
            && E.Opened(p, q, None, P.ServiceNotProvided, P.FromDispute, admin.id)
            && q.refunds[|p.refunds|].status
               == (if p.captured > P.HIGH_REFUND_CENTS then P.Requested else E.Sent(refunded))
            && after.order.status
               == if q.refunds[|p.refunds|].status == P.Succeeded then O.Refunded else O.Disputed
  {
    hide P.Apply, I.Consistent, AtMostOneLive, P.PolicyOf, O.Assigned, SomeCharged, E.Opened, E.MayOpen;
    E.FinanceRefundOpens(d.payments[i], admin, None, P.ServiceNotProvided, P.FromDispute, refunded);
    SomethingCharged(d.payments[i]);
    assert O.System in O.Caps(O.Job, d.order, O.Refunded) * O.AllowedTo(O.Disputed, O.Refunded);
  }

  lemma SomethingCharged(p: P.Payment)
    requires I.Consistent(p) && Confirmed(p.status)
    ensures p.refunded < p.captured
  {
    hide I.RefundsAgree, I.ChargebackAgrees, I.BookAgrees, RowAdmitted;
  }

  /**
   A full resolution of an order that is only reserved cancels it and gives the reservation up; a reservation above
   the threshold needs the high permission, and one in process makes the whole resolution fail.
   */
  lemma FullResolutionCancels(d: Desk, i: nat, admin: P.Actor, cents: Option<int>, answer: Option<P.Report>,
                              refunded: P.RefundAnswer, voided: bool)
    requires d.order.status == O.Disputed && Active(d.payments) == Some(i) && P.Cancellable(d.payments[i].status)
    ensures var r, p := Resolve(d, admin, FullRefund, cents, answer, refunded, voided), d.payments[i];
            && (r.Ok? <==> p.status != P.Processing && (p.amount > P.HIGH_REFUND_CENTS ==> admin.mayApproveHigh))
            && (r.Ok? ==> r.value.order.status == O.Cancelled && OnlyPayment(d.payments, r.value.payments, i)
                          && r.value.payments[i] == p.(status := P.Cancelled, voids := if p.providerId.Some? && !voided
                                                                                      then p.voids + 1 else p.voids))
  {
    hide P.Cancel;
    T.CancelFailsInProcess(d.payments[i], voided);
    assert O.Admin in O.Caps(O.AdminUser, d.order, O.Cancelled) * O.AllowedTo(O.Disputed, O.Cancelled);
  }

  /** Releasing the money to the technician needs a charge or a reservation, and moves no money itself. */
  lemma ReleaseResolutionCompletes(d: Desk, admin: P.Actor, cents: Option<int>, answer: Option<P.Report>,
                                   refunded: P.RefundAnswer, voided: bool)
    requires d.order.status == O.Disputed
    ensures var r, a := Resolve(d, admin, ReleasePayment, cents, answer, refunded, voided), Active(d.payments);
            && (r.Ok? <==> a.Some? && d.payments[a.value].status in {P.Paid, P.PartiallyRefunded, P.Authorized})
            && (r.Ok? ==> r.value.payments == d.payments
                          && r.value.order.status == if d.payments[a.value].status == P.Authorized then O.Completed
                              else if d.order.reviewed then O.Reviewed else O.ReadyForReview)
  {
    hide Captured;
    forall to | to in {O.Completed, O.ReadyForReview, O.Reviewed}
      ensures O.Admin in O.Caps(O.AdminUser, d.order, to) * O.AllowedTo(O.Disputed, to) {}
  }

  // ---------------------------------------------------------------------------
  // The way to the charge
  // ---------------------------------------------------------------------------

  /** Taking an order from the pool needs an eligible technician it is open to, and fixes the price they offered. */
  lemma AcceptFixesPrice(d: Desk, technician: nat, price: nat, eligible: bool)
    requires O.Assigned(d.order)
    ensures var r, o := Accept(d, technician, price, eligible), d.order;
            && (r.Ok? <==>
                  eligible && o.status == O.Requested && (o.requested.None? || o.requested == Some(technician)))
            && (r.Ok? ==> r.value == d.(order := o.(status := O.Accepted, technician := Some(technician),
                                                    price := Some(price), version := o.version + 1)))
  {
    O.TransitionExactly(d.order.(price := Some(price)), O.Accepted, O.TechnicianUser(technician), None);
    hide O.AllowedTo, O.Caps;
  }

  /** Letting go of an order returns it to the pool without a price, and gives its reservation up. */
  lemma ReleaseReturns(d: Desk, voided: bool)
    requires O.PreStart(d.order.status) && O.Assigned(d.order) && Release(d, voided).Ok?
    ensures var after, o := Release(d, voided).value, d.order;
            && after.order.status == O.Requested && after.order.technician.None? && after.order.price.None?
            && after.order.requested == o.requested && after.order.version == o.version + 1
            && |after.payments| == |d.payments|
            && (forall i :: 0 <= i < |d.payments| && Active(d.payments) != Some(i) ==>
                  after.payments[i] == d.payments[i])
            && (Active(d.payments).Some? ==>
                  var p, q := d.payments[Active(d.payments).value], after.payments[Active(d.payments).value];
                  if P.Cancellable(p.status)
                  then q.status == P.Cancelled && !after.order.departed
                       && q.voids == (if p.providerId.Some? && !voided then p.voids + 1 else p.voids)
                  else q == p)
  {
    var a := Active(d.payments);
    if a.Some? { T.CancelFailsInProcess(d.payments[a.value], voided); }
    hide P.Cancel, O.AllowedTo, O.Caps;
  }

  /** A technician who withdraws before the start leaves the order as the platform would have left it. */
  lemma WithdrawReturns(d: Desk, technician: nat, voided: bool)
    requires O.Assigned(d.order)
    ensures var r := Withdraw(d, technician, voided);
            && (r.Ok? ==> d.order.technician == Some(technician) && O.PreStart(d.order.status))
            && (d.order.technician == Some(technician) && O.PreStart(d.order.status) ==> r == Release(d, voided))
  {
    hide CancelForOrder, O.AllowedTo, O.Caps;
    var cancelled := CancelForOrder(d, voided);
    CancelKeepsOrder(d, voided);
    if cancelled.Ok? {
      O.TransitionExactly(cancelled.value.order, O.Requested, O.TechnicianUser(technician), None);
      O.TransitionExactly(cancelled.value.order, O.Requested, O.Job, None);
    }
  }

  lemma CancelKeepsOrder(d: Desk, voided: bool)
    ensures var r := CancelForOrder(d, voided);
            r.Ok? ==> r.value.order == d.order.(departed := r.value.order.departed)
  {
    hide P.Cancel;
  }

  /** The state an action brings its order to, for those that have just one. */
  function Aim(action: Action): Option<O.OrderStatus> {
    match action
    case Accepting(_, _, _) => Some(O.Accepted)
    case Scheduling(_, _, _, _) => Some(O.Scheduled)
    case Withdrawing(_, _) => Some(O.Requested)
    case Starting(_, _) => Some(O.InProgress)
    case Finishing(_) => Some(O.AwaitingApproval)
    case Disputing(_, _) => Some(O.Disputed)
    case Reviewing(_) => Some(O.Reviewed)
    case Cancelling(_, _, _, _, _) => Some(O.Cancelled)
    case _ => None
  }

  /** Who takes each of them: technicians or clients, always of this order but for an acceptance. */
  function Taker(action: Action): O.Actor
    requires Aim(action).Some?
  {
    match action
    case Accepting(t, _, _) => O.TechnicianUser(t)
    case Scheduling(t, _, _, _) => O.TechnicianUser(t)
    case Withdrawing(t, _) => O.TechnicianUser(t)
    case Starting(t, _) => O.TechnicianUser(t)
    case Finishing(t) => O.TechnicianUser(t)
    case Disputing(c, _) => O.ClientUser(c)
    case Reviewing(c) => O.ClientUser(c)
    case Cancelling(c, _, _, _, _) => O.ClientUser(c)
  }

  /** Each of these actions brings the order where it aims, and only for those who may bring it there. */
  lemma ActionReaches(d: Desk, action: Action)
    requires O.Assigned(d.order) && Aim(action).Some? && Do(d, action).Ok?
    ensures O.MayBring(d.order, Aim(action).value, Taker(action))
    ensures Do(d, action).value.order.status == Aim(action).value
  {
    hide O.Transition, OnPayment, CancelForOrder, CreateForOrder, O.MayBring;
    var to, actor := Aim(action).value, Taker(action);
    if action.Withdrawing? {
      var c := CancelForOrder(d, action.voided).value;
      CancelKeepsOrder(d, action.voided);
      Brought(c, to, actor);
      MayRelabel(d.order, c.order, to, actor);
    } else if action.Accepting? {
      var priced := d.(order := d.order.(price := Some(action.price)));
      Brought(priced, to, actor);
      MayRelabel(d.order, priced.order, to, actor);
    } else {
      Brought(d, to, actor);
    }
    if action.Scheduling? { CreationKeepsOrder(MoveOrder(d, to, actor).value, action.terms, action.taxes); }
    if action.Cancelling? { CancelledStays(MoveOrder(d, to, actor).value, action.voided); }
    if action.Cancelling? && Active(d.payments).Some? {
      PaidCancelledStays(MoveOrder(d, to, actor).value, Active(d.payments).value,
          P.VisitFee(action.fee, action.feeTerms, action.answer, action.voided));
    }
  }

  lemma Brought(d: Desk, to: O.OrderStatus, actor: O.Actor)
    requires O.Assigned(d.order)
    ensures var r := MoveOrder(d, to, actor);
            r.Ok? ==> O.MayBring(d.order, to, actor) && r.value.order.status == to && r.value.payments == d.payments
  {
    O.TransitionExactly(d.order, to, actor, None);
    hide O.AllowedTo, O.Caps, O.MayBring;
  }

  lemma MayRelabel(o: O.Order, after: O.Order, to: O.OrderStatus, actor: O.Actor)
    requires after == o.(price := after.price, departed := after.departed)
    ensures O.MayBring(o, to, actor) <==> O.MayBring(after, to, actor)
  {
  }

  lemma CreationKeepsOrder(d: Desk, terms: Option<RuleTerms>, taxes: TaxRates)
    ensures var r := CreateForOrder(d, terms, taxes); r.Ok? ==> r.value.order == d.order
  {
    hide Compute;
  }

  lemma CancelledStays(d: Desk, voided: bool)
    requires d.order.status == O.Cancelled
    ensures var r := CancelForOrder(d, voided); r.Ok? ==> r.value.order.status == O.Cancelled
  {
    hide P.Cancel;
  }

  lemma PaidCancelledStays(d: Desk, i: nat, e: P.Event)
    requires d.order.status == O.Cancelled
    ensures var r := OnPayment(d, i, e); r.Ok? ==> r.value.order.status == O.Cancelled
  {
    hide P.Apply;
  }

  /** Scheduling an order without a live payment makes one for the accepted price, with the split of the rule given. */
  lemma ScheduleQuotes(d: Desk, technician: nat, eligible: bool, terms: Option<RuleTerms>, taxes: TaxRates)
    requires Schedule(d, technician, eligible, terms, taxes).Ok?
    ensures var after := Schedule(d, technician, eligible, terms, taxes).value;
            && eligible && d.order.status == O.Accepted && d.order.technician == Some(technician)
            && after.order == d.order.(status := O.Scheduled, version := d.order.version + 1)
            && (Active(d.payments).Some? ==> after.payments == d.payments)
            && (Active(d.payments).None? ==>
                  && terms.Some? && d.order.price.Some?
                  && |after.payments| == |d.payments| + 1 && after.payments[..|d.payments|] == d.payments
                  && var p := after.payments[|d.payments|];
                  && p == P.NewPayment(p.quote) && p.amount == WithTax(d.order.price.value, taxes.serviceBp)
                  && p.quote.price == d.order.price.value && p.quote.terms == terms.value && p.quote.taxes == taxes)
  {
    hide WithTax;
    var w :| w in O.Caps(O.TechnicianUser(technician), d.order, O.Scheduled)
                  * O.AllowedTo(d.order.status, O.Scheduled);
  }

  /**
   Whoever leaves for the client's home is the technician of the scheduled order, with the money reserved; a card
   that is declined, or an answer that is still open, leaves the technician at home.
   */
  lemma DepartureReserved(d: Desk, technician: nat, ready: bool, answer: Option<P.Report>)
    requires Depart(d, technician, ready, answer).Ok? && !d.order.departed
    ensures var after, a := Depart(d, technician, ready, answer).value, Active(d.payments);
            && d.order.status == O.Scheduled && d.order.technician == Some(technician) && a.Some?
            && (d.payments[a.value].status == P.Pending ==> ready && answer.Some?)
            && (after.order.departed <==> a.value < |after.payments| && after.payments[a.value].status == P.Authorized)
            && (d.payments[a.value].status != P.Pending ==> after.payments == d.payments)
  {
    hide P.Apply, O.Transition;
    var a := Active(d.payments);
    if answer.Some? { AtHome(d, a.value, P.Reported(answer.value)); }
  }

  lemma AtHome(d: Desk, i: nat, e: P.Event)
    requires !d.order.departed
    ensures var r := OnPayment(d, i, e); r.Ok? ==> !r.value.order.departed
  {
    hide P.Apply;
  }

  /** Work starts only with the money reserved, by the technician of the order, whose identity is still approved. */
  lemma StartNeedsReservation(d: Desk, technician: nat, approved: bool)
    requires Start(d, technician, approved).Ok?
    ensures approved && d.order.status == O.Scheduled && d.order.technician == Some(technician)
    ensures var a := Active(d.payments); a.Some? && d.payments[a.value].status == P.Authorized
    ensures Start(d, technician, approved).value == d.(order := d.order.(status := O.InProgress,
                                                                         version := d.order.version + 1))
  {
    var w :| w in O.Caps(O.TechnicianUser(technician), d.order, O.InProgress)
                  * O.AllowedTo(d.order.status, O.InProgress);
  }

  /** A charge moves the order on only once its work was approved; a lost one undoes what it can. */
  lemma PaymentMovesOrder(d: Desk, effect: P.Effect, quote: Breakdown)
    requires AfterPayment(d, effect, quote).Ok?
    ensures var before, after := d.order.status, AfterPayment(d, effect, quote).value.order.status;
            match effect
            case NoEffect => after == before
            case CaptureConfirmed => after == if before == O.Completed then O.ReadyForReview else before
            case PaymentDeclined => after == if before == O.Completed then O.Failed else before
            case ReservationLost(_) => after == before
            case FullyRefunded =>
              after == if before in {O.Disputed, O.ReadyForReview, O.Reviewed} then O.Refunded else before
  {
    CapturedMoves(d);
    hide Captured;
  }

  // ---------------------------------------------------------------------------
  // Cancelling, disputing, asking back
  // ---------------------------------------------------------------------------

  /**
   A client cancels an order that has not started. Before the technician leaves, the reservation is given up and
   nothing is charged; afterwards the visit fee is charged from it.
   */
  lemma CancellationCharges(d: Desk, client: nat, fee: nat, terms: RuleTerms, answer: Option<P.Report>, voided: bool,
                            i: nat)
    requires Sound(d) && Active(d.payments) == Some(i) && d.payments[i].status == P.Authorized
    requires CancelByClient(d, client, fee, terms, answer, voided).Ok?
    ensures var after := CancelByClient(d, client, fee, terms, answer, voided).value;
            var onSite := d.order.departed && fee > 0;
            && client == d.order.client && d.order.status in {O.Requested, O.Accepted, O.Scheduled}
            && after.order.status == O.Cancelled && OnlyPayment(d.payments, after.payments, i)
            && (!onSite ==> after.payments[i].status == P.Cancelled && after.payments[i].captured == 0)
            && (onSite && d.payments[i].providerId.Some? && d.payments[i].partial.None? ==>
                  var q, b := after.payments[i], Compute(fee, terms, d.payments[i].quote.taxes);
                  && (answer.None? || b.Err? ==> q.status == P.Cancelled && q.captured == 0)
                  && (b.Ok? && b.value.Charge() < d.payments[i].amount
                      && answer.Some? && answer.value.status == P.Paid ==>
                        q.status == P.Paid && q.captured == b.value.Charge()))
  {
    hide I.Consistent, P.Apply, Compute, SomeCharged, AtMostOneLive;
    var p := d.payments[i];
    var w :| w in O.Caps(O.ClientUser(client), d.order, O.Cancelled) * O.AllowedTo(d.order.status, O.Cancelled);
    E.NothingRefunded(p);
    NothingCaptured(p);
    if p.providerId.Some? && p.partial.None? { E.VisitFeeEnds(p, fee, terms, answer, voided); }
  }

  lemma NothingCaptured(p: P.Payment)
    requires I.Consistent(p) && P.Cancellable(p.status)
    ensures p.captured == 0
  {
    hide I.RefundsAgree, I.ChargebackAgrees, I.BookAgrees, RowAdmitted;
  }

  /** A client asks a refund of an order of their own, charged, in time, and for a reason that clients may give. */
  lemma RefundAskedInTime(d: Desk, client: nat, inWindow: bool, cents: Option<int>, reason: P.Reason, i: nat)
    requires Sound(d) && Active(d.payments) == Some(i)
    ensures var r := AskRefund(d, client, inWindow, cents, reason);
            && (r.Ok? <==>
                  && client == d.order.client && d.order.status in {O.Paid, O.ReadyForReview, O.Reviewed} && inWindow
                  && reason in {P.ServiceNotProvided, P.ServiceDeficient, P.DuplicateCharge}
                  && E.MayOpen(d.payments[i], cents))
            && (r.Ok? ==> r.value.order == d.order && OnlyPayment(d.payments, r.value.payments, i)
                          && E.Opened(d.payments[i], r.value.payments[i], cents, reason, P.FromClient, client))
  {
    hide I.Consistent, P.Apply, E.MayOpen, E.Opened;
    E.ClientRequestOpens(d.payments[i], client, cents, reason);
  }

  /** A client may dispute from the start of the work on, and in the window only once it is charged. */
  lemma DisputeInTime(d: Desk, client: nat, inWindow: bool)
    ensures var r := OpenDispute(d, client, inWindow);
            && (r.Ok? <==> client == d.order.client
                           && (d.order.status in {O.InProgress, O.AwaitingApproval}
                               || (d.order.status in {O.Paid, O.ReadyForReview, O.Reviewed} && inWindow)))
            && (r.Ok? ==> r.value == d.(order := d.order.(status := O.Disputed, version := d.order.version + 1)))
  {
    var allowed := O.AllowedTo(d.order.status, O.Disputed);
    assert O.Client in allowed <==>
        d.order.status in {O.InProgress, O.AwaitingApproval, O.Paid, O.ReadyForReview, O.Reviewed};
    assert O.Client in allowed ==> O.Client in {O.Client} * allowed;
    assert O.Client !in allowed ==> {O.Client} * allowed == {};
  }

  // ---------------------------------------------------------------------------
  // One rating for each order
  // ---------------------------------------------------------------------------

  /** A rated order never waits for a rating again. */
  predicate RatedOnce(o: O.Order) {
    o.reviewed ==> o.status in {O.Reviewed, O.Disputed, O.Refunded, O.Cancelled}
  }

  predicate RatingKept(d: Desk, r: Result<Desk>) {
    RatedOnce(d.order) && r.Ok? ==> RatedOnce(r.value.order) && r.value.order.reviewed == d.order.reviewed
  }

  lemma MoveRated(d: Desk, to: O.OrderStatus, actor: O.Actor, expected: Option<nat>)
    requires d.order.reviewed ==> to != O.ReadyForReview && (to != O.Completed || actor != O.AdminUser)
    ensures RatingKept(d, MoveOrder(d, to, actor, expected))
  {
    hide O.Caps;
    if d.order.status == O.Disputed && to == O.Completed && actor != O.AdminUser {
      OnlyAdminReopens(d, actor, expected);
    }
  }

  lemma OnlyAdminReopens(d: Desk, actor: O.Actor, expected: Option<nat>)
    requires d.order.status == O.Disputed && actor != O.AdminUser
    ensures MoveOrder(d, O.Completed, actor, expected).Err?
  {
    assert O.Caps(actor, d.order, O.Completed) * {O.Admin} == {};
  }

  lemma CapturedRated(d: Desk)
    ensures RatingKept(d, Captured(d))
  {
    CapturedMoves(d);
    hide Captured;
  }

  lemma OnPaymentRated(d: Desk, i: nat, e: P.Event)
    ensures RatingKept(d, OnPayment(d, i, e))
  {
    hide P.Apply, O.Transition, Captured;
    if i < |d.payments| && P.Apply(d.payments[i], e).Ok? {
      var moved := d.(payments := d.payments[i := P.Apply(d.payments[i], e).value.payment]);
      CapturedRated(moved);
      MoveRated(moved, O.Failed, O.Job, None);
      MoveRated(moved, O.Refunded, O.Job, None);
    }
  }

  lemma CancelRated(d: Desk, voided: bool, to: O.OrderStatus, actor: O.Actor)
    requires to != O.ReadyForReview && to != O.Completed
    ensures var c := CancelForOrder(d, voided);
            RatingKept(d, c) && (c.Ok? ==> RatingKept(d, MoveOrder(c.value, to, actor)))
  {
    hide P.Cancel, O.Transition;
    if CancelForOrder(d, voided).Ok? { MoveRated(CancelForOrder(d, voided).value, to, actor, None); }
  }

  lemma CompletedRated(d: Desk, actor: O.Actor, expected: Option<nat>)
    requires d.order.reviewed ==> actor != O.AdminUser
    ensures var c := MoveOrder(d, O.Completed, actor, expected); c.Ok? ==> RatingKept(d, AfterCompleted(c.value))
  {
    hide O.Transition, Captured;
    MoveRated(d, O.Completed, actor, expected);
    var c := MoveOrder(d, O.Completed, actor, expected);
    if c.Ok? { CapturedRated(c.value); }
  }

  /** The live payment of a rated order is the one that was charged: it is not a mere reservation. */
  lemma RatedNotReserved(d: Desk, i: nat)
    requires Sound(d) && d.order.reviewed && Active(d.payments) == Some(i)
    ensures d.payments[i].status != P.Authorized
  {
    hide I.Consistent;
    var k :| 0 <= k < |d.payments| && Charged(d.payments[k]);
    ChargedIsLive(d.payments[k]);
    assert k == i;
    if d.payments[i].status == P.Authorized { T.ConsistentFresh(d.payments[i]); }
  }

  lemma ResolveRated(d: Desk, admin: P.Actor, outcome: Resolution, cents: Option<int>, answer: Option<P.Report>,
                     refunded: P.RefundAnswer, voided: bool)
    requires Sound(d)
    ensures RatingKept(d, Resolve(d, admin, outcome, cents, answer, refunded, voided))
  {
    hide Sound, O.Transition, OnPayment, CancelForOrder, PriceForCharge, AfterCompleted, MoveOrder, P.Cancellable,
        RatedOnce;
    var a, to := Active(d.payments), AfterPaymentStatus(d.order);
    match outcome {
      case ReleasePayment =>
        MoveRated(d, to, O.AdminUser, None);
        if d.order.reviewed && a.Some? { RatedNotReserved(d, a.value); }
        if !d.order.reviewed { CompletedRated(d, O.AdminUser, None); }
      case PartialRefund =>
        if a.Some? && cents.Some? {
          var p := d.payments[a.value];
          PayThenRated(d, a.value, P.FinanceRefund(admin, cents, P.ServiceDeficient, P.FromDispute, refunded));
          if 0 < cents.value < p.amount {
            PayThenRated(d, a.value, P.PartCapture(PriceForCharge(p.amount - cents.value, p.quote.taxes.serviceBp),
                None, answer));
          }
        }
      case FullRefund =>
        CancelRated(d, voided, O.Cancelled, O.AdminUser);
        if a.Some? {
          OnPaymentRated(d, a.value, P.FinanceRefund(admin, None, P.ServiceNotProvided, P.FromDispute, refunded));
        }
    }
  }

  lemma PayThenRated(d: Desk, i: nat, e: P.Event)
    ensures var r := OnPayment(d, i, e);
            r.Ok? ==> RatingKept(d, MoveOrder(r.value, AfterPaymentStatus(d.order), O.AdminUser))
  {
    hide O.Transition, OnPayment;
    OnPaymentRated(d, i, e);
    var r := OnPayment(d, i, e);
    if r.Ok? && RatedOnce(d.order) {
      if d.order.reviewed { MoveRated(r.value, O.Reviewed, O.AdminUser, None); } else { FreshRated(r.value); }
    }
  }

  lemma FreshRated(d: Desk)
    ensures RatedOnce(d.order) && !d.order.reviewed ==>
              RatingKept(d, MoveOrder(d, O.ReadyForReview, O.AdminUser))
  {
  }

  lemma ActionRated(d: Desk, action: Action)
    requires Sound(d) && !action.Reviewing?
    ensures RatingKept(d, Do(d, action))
  {
    hide Sound, Schedule, Depart, Resolve, OnPayment, CancelForOrder, MoveOrder, AfterCompleted, RatedOnce;
    match action {
      case Accepting(technician, price, _) =>
        var priced := d.(order := d.order.(price := Some(price)));
        MoveRated(priced, O.Accepted, O.TechnicianUser(technician), None);
        Relabel(d, priced, MoveOrder(priced, O.Accepted, O.TechnicianUser(technician)));
      case Scheduling(technician, eligible, terms, taxes) => ScheduleRated(d, technician, eligible, terms, taxes);
      case Departing(technician, ready, answer) => DepartRated(d, technician, ready, answer);
      case Withdrawing(technician, voided) => CancelRated(d, voided, O.Requested, O.TechnicianUser(technician));
      case Releasing(voided) => CancelRated(d, voided, O.Requested, O.Job);
      case Starting(technician, _) => MoveRated(d, O.InProgress, O.TechnicianUser(technician), None);
      case Finishing(technician) => MoveRated(d, O.AwaitingApproval, O.TechnicianUser(technician), None);
      case Approving(client, expected) => CompletedRated(d, O.ClientUser(client), expected);
      case AutoApproving => CompletedRated(d, O.Job, None);
      case Cancelling(client, fee, terms, answer, voided) => CancelledRated(d, client, fee, terms, answer, voided);
      case Disputing(client, _) => MoveRated(d, O.Disputed, O.ClientUser(client), None);
      case Resolving(admin, outcome, cents, answer, refunded, voided) =>
        ResolveRated(d, admin, outcome, cents, answer, refunded, voided);
      case Expiring => MoveRated(d, O.Cancelled, O.Job, None);
      case AskingRefund(client, _, cents, reason) =>
        var a := Active(d.payments);
        if a.Some? { OnPaymentRated(d, a.value, P.ClientRequest(client, cents, reason)); }
      case ToPayment(i, e) => OnPaymentRated(d, i, e);
    }
  }

  lemma Relabel(d: Desk, priced: Desk, r: Result<Desk>)
    requires priced.order == d.order.(price := priced.order.price) && RatingKept(priced, r)
    ensures RatingKept(d, r)
  {
  }

  lemma ScheduleRated(d: Desk, technician: nat, eligible: bool, terms: Option<RuleTerms>, taxes: TaxRates)
    ensures RatingKept(d, Schedule(d, technician, eligible, terms, taxes))
  {
    hide O.Transition, Compute;
    MoveRated(d, O.Scheduled, O.TechnicianUser(technician), None);
  }

  lemma DepartRated(d: Desk, technician: nat, ready: bool, answer: Option<P.Report>)
    ensures RatingKept(d, Depart(d, technician, ready, answer))
  {
    hide OnPayment;
    var a := Active(d.payments);
    if a.Some? && answer.Some? { OnPaymentRated(d, a.value, P.Reported(answer.value)); }
  }

  lemma CancelledRated(d: Desk, client: nat, fee: nat, terms: RuleTerms, answer: Option<P.Report>, voided: bool)
    ensures RatingKept(d, CancelByClient(d, client, fee, terms, answer, voided))
  {
    hide O.Transition, OnPayment, CancelForOrder;
    MoveRated(d, O.Cancelled, O.ClientUser(client), None);
    var moved, a := MoveOrder(d, O.Cancelled, O.ClientUser(client)), Active(d.payments);
    if moved.Ok? {
      CancelRated(moved.value, voided, O.Requested, O.Job);
      if a.Some? { OnPaymentRated(moved.value, a.value, P.VisitFee(fee, terms, answer, voided)); }
    }
  }

  lemma ReviewRates(d: Desk, client: nat)
    requires RatedOnce(d.order)
    ensures var r := Review(d, client);
            && (d.order.reviewed ==> r.Err?)
            && (r.Ok? ==> client == d.order.client && r.value.order.reviewed && RatedOnce(r.value.order)
                          && r.value.payments == d.payments)
  {
  }

  lemma StepRated(d: Desk, action: Action)
    requires Sound(d) && RatedOnce(d.order)
    ensures RatedOnce(Step(d, action).order) && (d.order.reviewed ==> Step(d, action).order.reviewed)
  {
    if action.Reviewing? {
      ReviewRates(d, action.client);
    } else {
      ActionRated(d, action);
    }
    hide Do, RatedOnce, Sound;
  }

  lemma {:induction false} RunRated(d: Desk, actions: seq<Action>)
    requires Sound(d) && RatedOnce(d.order)
    ensures RatedOnce(Run(d, actions).order) && (d.order.reviewed ==> Run(d, actions).order.reviewed)
    decreases |actions|
  {
    hide Sound, RatedOnce, Step;
    if actions == [] {
    } else {
      StepSound(d, actions[0]);
      StepRated(d, actions[0]);
      RunRated(Step(d, actions[0]), actions[1..]);
    }
  }

  /** However an order goes on after its rating, disputes and resolutions included, it is never rated again. */
  lemma RunRatesOnce(client: nat, requested: Option<nat>, actions: seq<Action>, later: seq<Action>, rater: nat)
    requires Reached(client, requested, actions).order.reviewed
    ensures var d := Run(Reached(client, requested, actions), later);
            d.order.reviewed && Do(d, Reviewing(rater)).Err?
  {
    hide Sound, Run;
    var d := Reached(client, requested, actions);
    ReachedSound(client, requested, actions);
    ReachedSound(client, requested, []);
    EmptyRun(client, requested);
    RunRated(NewDesk(client, requested), actions);
    RunRated(d, later);
    ReviewRates(Run(d, later), rater);
  }

  lemma EmptyRun(client: nat, requested: Option<nat>)
    ensures Reached(client, requested, []) == NewDesk(client, requested) && RatedOnce(NewDesk(client, requested).order)
  {
  }
}
